/** The state an enrolled node keeps, and what its concurrent processes may do to it:
    any number of CNI calls (internal/cni/plugin.go) and one reconcile pass of the node
    agent (internal/nodeagent/service.go) interleave at every external call. */
module NodeWorld {
  import opened Common

  datatype PodRef = PodRef(name: nat, uid: Uid)

  // A sandbox and a network namespace each belong to one Pod, and neither identity is
  // ever reused.
  datatype Sandbox = Sandbox(id: nat, owner: PodRef)
  datatype Namespace = Namespace(id: nat, owner: PodRef)

  type Path = nat

  datatype Key = Key(sandbox: Sandbox, ifName: nat)

  datatype PodIdentity = PodIdentity(key: Key, netns: Path)

  datatype Binding = Binding(uid: Uid, generation: int, podUid: Uid, gatewayUid: Uid)

  datatype Phase = LockedDown | Ready

  datatype Attachment = Attachment(pod: PodIdentity, ns: Namespace, phase: Phase,
                                   bindingUid: Uid, generation: int, gatewayUid: Uid, updatedAt: int)

  /** The data plane a binding asks for: what verification reads of it, the other
      settings of the overlay link, and the rest of the packet policy (endpoint, cluster
      mode and CIDRs, redirects). */
  datatype Config = Config(vni: nat, address: nat, gateway: nat, shape: nat, rest: nat)

  /** What a namespace's rules let out: everything, loopback only, or a protected path.
      The last two are guards. */
  datatype Rules = Unrestricted | Denied | Open(config: Config)

  /** The overlay link with its addresses and the protected default route over it. */
  datatype Link = Link(vni: nat, shape: nat, addresses: set<nat>, gateway: Option<nat>)

  datatype Net = Net(rules: Rules, link: Option<Link>)

  datatype PodInfo = PodInfo(uid: Uid, labelled: bool, terminating: bool, local: bool)

  datatype BindingInfo = BindingInfo(reference: Binding, config: Config, podName: nat, local: bool, deleting: bool)

  /** `issued` holds every Pod the API server ever created; bindings are named after
      their Pod's UID. */
  datatype World = World(store: map<Key, Attachment>, policy: map<Namespace, Net>, paths: map<Path, Namespace>,
                         pods: map<nat, PodInfo>, bindings: map<Uid, BindingInfo>, issued: set<PodRef>)

  function Owner(k: Key): PodRef {
    k.sandbox.owner
  }

  predicate Guarded(w: World, ns: Namespace) {
    ns in w.policy && !w.policy[ns].rules.Unrestricted?
  }

  /** The exact Pod no longer exists or is terminating. */
  predicate Gone(w: World, ref: PodRef) {
    && ref in w.issued
    && (ref.name in w.pods && w.pods[ref.name].uid == ref.uid ==> w.pods[ref.name].terminating)
  }

  predicate HasRecord(w: World, ref: PodRef) {
    exists k :: k in w.store && Owner(k) == ref
  }

  predicate RecordSound(w: World, k: Key, a: Attachment) {
    a.pod.key == k && a.ns.owner == Owner(k) && Owner(k) in w.issued && Guarded(w, a.ns)
  }

  /** Every durable record names a guarded namespace of its own Pod. */
  predicate Sound(w: World) {
    && (forall k :: k in w.store ==> RecordSound(w, k, w.store[k]))
    && forall n :: n in w.pods ==> PodRef(n, w.pods[n].uid) in w.issued
  }

  // ---- What one process may rely on from the others ----

  /** How a node is run: whether a release transition is held, and whether the runtime
      issues GC. */
  datatype Mode = Mode(held: bool, gc: bool)

  predicate GuardsStay(w: World, w': World) {
    forall ns :: ns in w.policy && Guarded(w, ns) ==> Guarded(w', ns)
  }

  predicate GoneStays(w: World, w': World) {
    forall ref :: ref in w.issued && Gone(w, ref) ==> Gone(w', ref)
  }

  /** A Pod that has a record keeps one, unless it is gone. */
  predicate PodsKeepRecords(w: World, w': World) {
    forall k :: k in w.store ==> HasRecord(w', Owner(k)) || Gone(w', Owner(k))
  }

  /** A record is kept, unless its Pod is gone. */
  predicate RecordsKept(w: World, w': World) {
    forall k :: k in w.store ==> k in w'.store || Gone(w', Owner(k))
  }

  predicate NothingOpened(w: World, w': World) {
    forall ns :: ns in w'.policy && w'.policy[ns].rules.Open? ==>
      ns in w.policy && w.policy[ns].rules == w'.policy[ns].rules
  }

  predicate Follows(mode: Mode, w: World, w': World) {
    && Sound(w') && w.issued <= w'.issued && GuardsStay(w, w') && GoneStays(w, w')
    && (!mode.gc ==> PodsKeepRecords(w, w'))
    && (mode.held ==> NothingOpened(w, w'))
  }

  /** An ADD or CHECK, a DEL or GC, or the agent's pass. */
  datatype Thread = CniCall(path: Path) | CniRelease | ReconcilePass

  /** The runtime keeps the namespace path of an ADD or CHECK in place during it; only
      the reconcile pass removes records of Pods that still exist. */
  predicate Rely(mode: Mode, t: Thread, w: World, w': World) {
    && Follows(mode, w, w')
    && match t
       case CniCall(path) => (path in w.paths <==> path in w'.paths)
         && (path in w.paths ==> w'.paths[path] == w.paths[path])
       case CniRelease => true
       case ReconcilePass => !mode.gc ==> RecordsKept(w, w')
  }

  /** What every effect of a process does: it changes only records and policies. */
  predicate Guarantee(mode: Mode, t: Thread, w: World, w': World) {
    && Follows(mode, w, w')
    && w'.paths == w.paths && w'.pods == w.pods && w'.bindings == w.bindings && w'.issued == w.issued
    && (!t.ReconcilePass? && !mode.gc ==> RecordsKept(w, w'))
  }

  /** What one process guarantees is what every other relies on. */
  lemma GuaranteeMeetsRely(mode: Mode, t: Thread, u: Thread, w: World, w': World)
    requires Guarantee(mode, t, w, w')
    requires !t.ReconcilePass? || !u.ReconcilePass?
    ensures Rely(mode, u, w, w')
  {
  }

  lemma KeepTransitive(w: World, x: World, y: World)
    requires Sound(w) && Sound(x) && GoneStays(x, y) && w.issued <= x.issued
    requires PodsKeepRecords(w, x) && PodsKeepRecords(x, y)
    ensures PodsKeepRecords(w, y)
  {
    forall k | k in w.store ensures HasRecord(y, Owner(k)) || Gone(y, Owner(k)) {
      assert RecordSound(w, k, w.store[k]);
      if HasRecord(x, Owner(k)) {
        var j :| j in x.store && Owner(j) == Owner(k);
      }
    }
  }

  lemma FollowsTransitive(mode: Mode, w: World, x: World, y: World)
    requires Sound(w) && Follows(mode, w, x) && Follows(mode, x, y)
    ensures Follows(mode, w, y)
  {
    if !mode.gc {
      KeepTransitive(w, x, y);
    }
    assert GuardsStay(w, y);
    assert GoneStays(w, y);
    assert mode.held ==> NothingOpened(w, y);
  }

  lemma RelyTransitive(mode: Mode, t: Thread, w: World, x: World, y: World)
    requires Sound(w) && Rely(mode, t, w, x) && Rely(mode, t, x, y)
    ensures Rely(mode, t, w, y)
  {
    FollowsTransitive(mode, w, x, y);
    if t.ReconcilePass? && !mode.gc {
      forall k | k in w.store ensures k in y.store || Gone(y, Owner(k)) {
        assert RecordSound(w, k, w.store[k]);
      }
    }
  }

  lemma FollowsReflexive(mode: Mode, w: World)
    requires Sound(w)
    ensures Follows(mode, w, w)
  {
    assert PodsKeepRecords(w, w);
  }

  lemma RelyReflexive(mode: Mode, t: Thread, w: World)
    requires Sound(w)
    ensures Rely(mode, t, w, w)
  {
    FollowsReflexive(mode, w);
  }

  /** Whatever could be relied on before a call can be relied on after it. */
  ghost predicate Carries(mode: Mode, t: Thread, w: World, w': World) {
    forall start: World :: Sound(start) && Rely(mode, t, start, w) ==> Rely(mode, t, start, w')
  }

  lemma RelyCarries(mode: Mode, t: Thread, w: World, w': World)
    requires Rely(mode, t, w, w')
    ensures Carries(mode, t, w, w')
  {
    forall start: World | Sound(start) && Rely(mode, t, start, w) ensures Rely(mode, t, start, w') {
      RelyTransitive(mode, t, start, w, w');
    }
  }

  lemma FromCarries(mode: Mode, t: Thread, w: World, w': World)
    requires Sound(w) && Carries(mode, t, w, w')
    ensures Rely(mode, t, w, w')
  {
    RelyReflexive(mode, t, w);
  }

  lemma GoneCarried(mode: Mode, t: Thread, w: World, w': World, ref: PodRef)
    requires Sound(w) && Carries(mode, t, w, w') && Gone(w, ref)
    ensures Gone(w', ref)
  {
    FromCarries(mode, t, w, w');
  }

  lemma SoundRecordCarried(mode: Mode, t: Thread, w: World, w': World, a: Attachment)
    requires Sound(w) && Carries(mode, t, w, w') && RecordSound(w, a.pod.key, a)
    ensures RecordSound(w', a.pod.key, a)
  {
    FromCarries(mode, t, w, w');
  }

  lemma ListedCarried(mode: Mode, w: World, w': World)
    requires Sound(w) && Carries(mode, ReconcilePass, w, w')
    ensures Follows(mode, w, w') && forall j :: Listed(mode, w, j) ==> Listed(mode, w', j)
  {
    FromCarries(mode, ReconcilePass, w, w');
  }

  // ---- The effects a process has ----

  /** What stays true of a listed record, except to the reconcile pass that removes it. */
  predicate Listed(mode: Mode, w: World, k: Key) {
    mode.gc || k in w.store || Gone(w, Owner(k))
  }

  function NetOf(w: World, ns: Namespace): Net {
    if ns in w.policy then w.policy[ns] else Net(Unrestricted, None)
  }

  function WithNet(w: World, path: Path, net: Net): World {
    if path in w.paths then w.(policy := w.policy[w.paths[path] := net]) else w
  }

  /** The rules are replaced by denial and the link stays. */
  function Locked(w: World, path: Path): World {
    if path in w.paths then WithNet(w, path, NetOf(w, w.paths[path]).(rules := Denied)) else w
  }

  /** The link is changed under the same rules. */
  function Rewired(w: World, path: Path, link: Option<Link>): World {
    if path in w.paths then WithNet(w, path, NetOf(w, w.paths[path]).(link := link)) else w
  }

  /** A link of the same kind is kept, with the addresses it has; another is replaced. */
  function Wired(link: Option<Link>, c: Config): Link {
    var kept :=
      if link.Some? && link.value.vni == c.vni && link.value.shape == c.shape then link.value.addresses else {};
    Link(c.vni, c.shape, kept + {c.address}, Some(c.gateway))
  }

  function Opened(w: World, path: Path, c: Config): World {
    if path in w.paths then WithNet(w, path, Net(Open(c), Some(Wired(NetOf(w, w.paths[path]).link, c)))) else w
  }

  function Saved(w: World, a: Attachment): World {
    w.(store := w.store[a.pod.key := a])
  }

  function Removed(w: World, k: Key): World {
    w.(store := w.store - {k})
  }

  datatype Effect =
    | Deny(path: Path) | Rewire(path: Path, link: Option<Link>) | Permit(path: Path, config: Config)
    | Enter(attachment: Attachment) | Forget(key: Key) | Supersede(key: Key, kept: Key)

  function After(w: World, e: Effect): World {
    match e
    case Deny(path) => Locked(w, path)
    case Rewire(path, link) => Rewired(w, path, link)
    case Permit(path, c) => Opened(w, path, c)
    case Enter(a) => Saved(w, a)
    case Forget(k) => Removed(w, k)
    case Supersede(k, _) => Removed(w, k)
  }

  /** When the code has an effect: it opens nothing while a transition is held, records
      only guarded namespaces, and removes a record with its Pod, under GC, or in the
      reconcile pass beside another record of the same Pod. */
  predicate Allowed(mode: Mode, t: Thread, w: World, e: Effect) {
    match e
    case Deny(path) => path in w.paths
    case Rewire(path, _) => path in w.paths
    case Permit(path, _) => path in w.paths && !mode.held
    case Enter(a) => RecordSound(w, a.pod.key, a)
    case Forget(k) => Gone(w, Owner(k)) || mode.gc
    case Supersede(k, kept) => t.ReconcilePass? && k != kept && Owner(k) == Owner(kept) && Listed(mode, w, kept)
  }

  /** Rules that do not become unrestricted keep every guard and record. */
  lemma NetFollows(mode: Mode, t: Thread, w: World, path: Path, net: Net)
    requires Sound(w) && path in w.paths
    requires net.rules.Unrestricted? ==> !Guarded(w, w.paths[path])
    requires mode.held && net.rules.Open? ==> NetOf(w, w.paths[path]).rules == net.rules
    ensures Guarantee(mode, t, w, WithNet(w, path, net)) && Rely(mode, t, w, WithNet(w, path, net))
  {
    var x := WithNet(w, path, net);
    assert forall k :: k in w.store ==> RecordSound(w, k, w.store[k]);
    assert GuardsStay(w, x);
    assert Sound(x);
    assert PodsKeepRecords(w, x);
  }

  lemma SavedFollows(mode: Mode, t: Thread, w: World, a: Attachment)
    requires Sound(w) && RecordSound(w, a.pod.key, a)
    ensures Guarantee(mode, t, w, Saved(w, a)) && Rely(mode, t, w, Saved(w, a))
  {
    var x := Saved(w, a);
    assert forall k :: k in w.store ==> RecordSound(w, k, w.store[k]);
    assert Sound(x);
    forall k | k in w.store ensures HasRecord(x, Owner(k)) {
      assert k in x.store;
    }
  }

  lemma RemovedFollows(mode: Mode, t: Thread, w: World, k: Key)
    requires Sound(w) && (Gone(w, Owner(k)) || mode.gc)
    ensures Guarantee(mode, t, w, Removed(w, k)) && Rely(mode, t, w, Removed(w, k))
  {
    var x := Removed(w, k);
    assert forall j :: j in w.store ==> RecordSound(w, j, w.store[j]);
    assert Sound(x);
    forall j | j in w.store && !mode.gc ensures j in x.store || Gone(x, Owner(j)) {
    }
    assert !mode.gc ==> PodsKeepRecords(w, x);
  }

  lemma SiblingFollows(mode: Mode, w: World, k: Key, kept: Key)
    requires Sound(w) && k != kept && Owner(k) == Owner(kept)
    requires Listed(mode, w, kept)
    ensures Guarantee(mode, ReconcilePass, w, Removed(w, k))
  {
    var x := Removed(w, k);
    assert forall j :: j in w.store ==> RecordSound(w, j, w.store[j]);
    assert Sound(x);
    if !mode.gc {
      forall j | j in w.store ensures HasRecord(x, Owner(j)) || Gone(x, Owner(j)) {
        assert j == k || j in x.store;
        assert kept in x.store || Gone(x, Owner(kept));
      }
    }
  }

  /** Every effect of the code keeps to the guarantee, and every effect but the removal of
      a sibling also to what its own process relies on. */
  lemma EffectKeepsGuarantee(mode: Mode, t: Thread, w: World, e: Effect)
    requires Sound(w) && Allowed(mode, t, w, e)
    ensures Guarantee(mode, t, w, After(w, e))
    ensures !e.Supersede? ==> Rely(mode, t, w, After(w, e))
  {
    match e
    case Deny(path) => NetFollows(mode, t, w, path, NetOf(w, w.paths[path]).(rules := Denied));
    case Rewire(path, link) => NetFollows(mode, t, w, path, NetOf(w, w.paths[path]).(link := link));
    case Permit(path, c) => NetFollows(mode, t, w, path, Net(Open(c), Some(Wired(NetOf(w, w.paths[path]).link, c))));
    case Enter(a) => SavedFollows(mode, t, w, a);
    case Forget(k) => RemovedFollows(mode, t, w, k);
    case Supersede(k, kept) => SiblingFollows(mode, w, k, kept);
  }

  // ---- What verification sees ----

  /** What Verify reads: drop-policy and DNS chains, the link's VNI, its addresses and the
      gateway of the protected route. */
  predicate Verifies(net: Net, c: Config) {
    && net.rules.Open? && net.link.Some?
    && net.link.value.vni == c.vni && c.address in net.link.value.addresses && net.link.value.gateway == Some(c.gateway)
  }

  predicate Looks(w: World, path: Path, c: Config) {
    path in w.paths && Verifies(NetOf(w, w.paths[path]), c)
  }

  /** The protected path of exactly this configuration is in force. */
  predicate Exactly(w: World, path: Path, c: Config) {
    Looks(w, path, c) && NetOf(w, w.paths[path]).rules == Open(c) && NetOf(w, w.paths[path]).link.value.shape == c.shape
  }

  // ---- Runs ----

  function At(h: seq<World>, i: nat): World
    requires i < |h|
  {
    h[i]
  }

  /** Every world of a run follows every earlier one. */
  ghost predicate Chain(mode: Mode, h: seq<World>) {
    && |h| > 0
    && forall i: nat, j: nat {:trigger At(h, i), At(h, j)} :: i <= j < |h| ==> Follows(mode, At(h, i), At(h, j))
  }

  lemma ChainExtends(mode: Mode, h: seq<World>, w: World)
    requires Chain(mode, h) && Follows(mode, At(h, |h| - 1), w)
    ensures Chain(mode, h + [w])
  {
    var g := h + [w];
    FollowsReflexive(mode, w);
    forall i: nat, j: nat | i <= j < |g| ensures Follows(mode, At(g, i), At(g, j)) {
      if j < |h| {
        assert At(g, i) == At(h, i) && At(g, j) == At(h, j);
      } else if i < |h| {
        assert At(g, i) == At(h, i) && At(g, j) == w;
        assert Follows(mode, At(h, i), At(h, i));
        FollowsTransitive(mode, h[i], h[|h| - 1], w);
      }
    }
  }

  /** Who moved a run to a world: the others, or a process by one of its effects. */
  datatype Mover = Others | Own(thread: Thread, effect: Effect)

  /** Every move a process made is an allowed effect. */
  ghost predicate Moved(mode: Mode, h: seq<World>, movers: seq<Mover>) {
    && |movers| == |h|
    && forall i :: 0 < i < |h| && movers[i].Own? ==>
         Allowed(mode, movers[i].thread, At(h, i - 1), movers[i].effect)
           && At(h, i) == After(At(h, i - 1), movers[i].effect)
  }

  lemma MovedExtends(mode: Mode, h: seq<World>, movers: seq<Mover>, m: Mover, w: World)
    requires |h| > 0 && Moved(mode, h, movers)
    requires m.Own? ==> Allowed(mode, m.thread, h[|h| - 1], m.effect) && w == After(h[|h| - 1], m.effect)
    ensures Moved(mode, h + [w], movers + [m])
  {
    var g, ms := h + [w], movers + [m];
    forall i | 0 < i < |g| && ms[i].Own?
      ensures Allowed(mode, ms[i].thread, At(g, i - 1), ms[i].effect) && At(g, i) == After(At(g, i - 1), ms[i].effect)
    {
      if i < |h| {
        assert ms[i] == movers[i] && At(g, i - 1) == At(h, i - 1) && At(g, i) == At(h, i);
      }
    }
  }

  /** One external call's turn: what the others did before it, whether it works, and the
      link a failing configuration or cleanup leaves, if it got that far. */
  datatype Turn = Turn(others: Option<World>, works: bool, leaves: Option<Option<Link>>)

  predicate Quiet(schedule: seq<Turn>) {
    forall i :: 0 <= i < |schedule| ==> schedule[i].others.None?
  }

  /** Nobody else runs and every call works. */
  predicate Calm(schedule: seq<Turn>) {
    Quiet(schedule) && forall i :: 0 <= i < |schedule| ==> schedule[i].works
  }

  predicate IsDenied(w: World, ns: Namespace) {
    ns in w.policy && w.policy[ns].rules.Denied?
  }

  predicate DeniedAt(w: World, path: Path) {
    path in w.paths && IsDenied(w, w.paths[path])
  }

  /** Some world from a point on had the namespace denied. */
  ghost predicate WasDenied(h: seq<World>, start: nat, path: Path) {
    exists i :: start <= i < |h| && DeniedAt(h[i], path)
  }

  predicate SamePolicy(w: World, w': World, ns: Namespace) {
    (ns in w.policy <==> ns in w'.policy) && (ns in w.policy ==> w'.policy[ns] == w.policy[ns])
  }

  /** Only the namespace at a path may differ. */
  ghost predicate PolicyOnly(w: World, w': World, path: Path) {
    && w' == w.(policy := w'.policy)
    && forall ns :: (path in w.paths && ns == w.paths[path]) || SamePolicy(w, w', ns)
  }

  lemma PolicyOnlyTransitive(w: World, x: World, y: World, path: Path)
    ensures PolicyOnly(w, x, path) && PolicyOnly(x, y, path) ==> PolicyOnly(w, y, path)
  {
    if PolicyOnly(w, x, path) && PolicyOnly(x, y, path) {
      forall ns | !(path in w.paths && ns == w.paths[path]) ensures SamePolicy(w, y, ns) {
        assert SamePolicy(w, x, ns) && SamePolicy(x, y, ns);
      }
    }
  }

  lemma LockedOnly(w: World, path: Path)
    ensures PolicyOnly(w, Locked(w, path), path)
  {
  }

  class Node {
    const mode: Mode
    var world: World
    var schedule: seq<Turn>
    var leaves: Option<Option<Link>>
    ghost var history: seq<World>
    ghost var movers: seq<Mover>

    ghost predicate Valid()
      reads this
    {
      Chain(mode, history) && Moved(mode, history, movers) && world == history[|history| - 1]
    }

    constructor (mode: Mode, world: World, schedule: seq<Turn>)
      requires Sound(world)
      ensures Valid() && this.mode == mode && this.world == world && this.schedule == schedule && history == [world]
    {
      this.mode, this.world, this.schedule, leaves := mode, world, schedule, None;
      history, movers := [world], [Others];
      new;
      FollowsReflexive(mode, world);
    }

    lemma NowSound()
      requires Valid()
      ensures Sound(world)
    {
      assert At(history, |history| - 1) == world;
    }

    ghost method Record(m: Mover, w: World)
      requires Valid() && Follows(mode, world, w)
      requires m.Own? ==> Allowed(mode, m.thread, world, m.effect) && w == After(world, m.effect)
      modifies this`history, this`movers
      ensures history == old(history) + [w] && Chain(mode, history) && Moved(mode, history, movers)
    {
      ChainExtends(mode, history, w);
      MovedExtends(mode, history, movers, m, w);
      history, movers := history + [w], movers + [m];
    }

    /** The others run, then this process's external call is about to be made. */
    method Wait(t: Thread) returns (works: bool)
      requires Valid()
      modifies this
      ensures Valid() && old(history) <= history
      ensures Carries(mode, t, old(world), world)
      ensures Quiet(old(schedule)) ==> Quiet(schedule) && world == old(world)
      ensures Calm(old(schedule)) ==> Calm(schedule) && works
    {
      leaves := None;
      if schedule == [] {
        return true;
      }
      var turn := schedule[0];
      schedule, leaves := schedule[1..], turn.leaves;
      if turn.others.Some? && Rely(mode, t, world, turn.others.value) {
        RelyCarries(mode, t, world, turn.others.value);
        Record(Others, turn.others.value);
        world := turn.others.value;
      }
      return turn.works;
    }

    /** An effect of the process itself. */
    method Act(t: Thread, e: Effect)
      requires Valid() && Allowed(mode, t, world, e)
      modifies this`world, this`history, this`movers
      ensures Valid() && world == After(old(world), e) && history == old(history) + [world]
      ensures !e.Supersede? ==> Carries(mode, t, old(world), world)
      ensures Follows(mode, old(world), world)
    {
      NowSound();
      EffectKeepsGuarantee(mode, t, world, e);
      if !e.Supersede? {
        RelyCarries(mode, t, world, After(world, e));
      }
      Record(Own(t, e), After(world, e));
      world := After(world, e);
    }

    // ---- Namespaces, internal/cni/enforcer_linux.go ----

    method Lockdown(t: Thread, path: Path) returns (ok: bool)
      requires Valid()
      modifies this
      ensures Valid() && old(history) <= history && Carries(mode, t, old(world), world)
      ensures ok ==> |old(history)| < |history| && DeniedAt(world, path)
      ensures Quiet(old(schedule)) ==> Quiet(schedule) && world == if ok then Locked(old(world), path) else old(world)
      ensures Calm(old(schedule)) ==> Calm(schedule) && ok == (path in old(world).paths)
    {
      var works := Wait(t);
      if !works || path !in world.paths {
        return false;
      }
      Act(t, Deny(path));
      return true;
    }

    /** Cleanup denies first; removing rules, routes and the link may still fail. */
    method Cleanup(t: Thread, path: Path) returns (ok: bool)
      requires Valid()
      modifies this
      ensures Valid() && old(history) <= history && Carries(mode, t, old(world), world)
      ensures ok ==> WasDenied(history, |old(history)|, path)
      ensures Quiet(old(schedule)) ==>
                Quiet(schedule)
                  && (world == old(world) || (PolicyOnly(old(world), world, path) && DeniedAt(world, path)))
      ensures Quiet(old(schedule)) && ok ==> DeniedAt(world, path) && NetOf(world, world.paths[path]).link.None?
      ensures Calm(old(schedule)) ==> Calm(schedule) && ok == (path in old(world).paths)
    {
      var denied := Lockdown(t, path);
      if !denied {
        return false;
      }
      ghost var at := |history| - 1;
      assert DeniedAt(history[at], path);
      ok := Strip(t, path);
      assert DeniedAt(history[at], path);
    }

    /** Remove rules, routes and the link; a failure leaves some link. */
    method Strip(t: Thread, path: Path) returns (ok: bool)
      requires Valid()
      modifies this
      ensures Valid() && old(history) <= history && Carries(mode, t, old(world), world)
      ensures Quiet(old(schedule)) ==>
                Quiet(schedule) && exists link :: world == Rewired(old(world), path, link) && (ok ==> link.None?)
      ensures Calm(old(schedule)) ==> Calm(schedule) && ok
    {
      ok := Wait(t);
      if path in world.paths {
        var link := if ok then None else if leaves.Some? then leaves.value else NetOf(world, world.paths[path]).link;
        Act(t, Rewire(path, link));
      } else {
        assert Rewired(world, path, None) == world;
      }
    }

    /** Configure replaces the packet policy only as its last act; a failure may have
        changed the link. */
    method Configure(t: Thread, path: Path, c: Config) returns (ok: bool)
      requires Valid() && !mode.held
      modifies this
      ensures Valid() && old(history) <= history && Carries(mode, t, old(world), world)
      ensures ok ==> |old(history)| < |history| && Exactly(world, path, c)
      ensures Quiet(old(schedule)) ==> Quiet(schedule) && PolicyOnly(old(world), world, path)
      ensures Quiet(old(schedule)) && !ok && path in old(world).paths ==>
                NetOf(world, old(world).paths[path]).rules == NetOf(old(world), old(world).paths[path]).rules
      ensures Calm(old(schedule)) ==>
                Calm(schedule) && ok == (path in old(world).paths) && world == Opened(old(world), path, c)
    {
      var works := Wait(t);
      if path !in world.paths {
        return false;
      }
      if !works {
        if leaves.Some? {
          Act(t, Rewire(path, leaves.value));
        }
        return false;
      }
      Act(t, Permit(path, c));
      return true;
    }

    /** Verify passes on any open path it cannot tell from the wanted one. */
    method Verify(t: Thread, path: Path, c: Config) returns (ok: bool)
      requires Valid()
      modifies this
      ensures Valid() && old(history) <= history && Carries(mode, t, old(world), world)
      ensures ok ==> Looks(world, path, c)
      ensures Quiet(old(schedule)) ==> Quiet(schedule) && world == old(world)
      ensures Calm(old(schedule)) ==> Calm(schedule) && ok == Looks(old(world), path, c)
    {
      var works := Wait(t);
      return works && Looks(world, path, c);
    }

    // ---- The durable store, internal/cni/store.go ----

    method Save(t: Thread, a: Attachment) returns (ok: bool)
      requires Valid() && RecordSound(world, a.pod.key, a)
      modifies this
      ensures Valid() && old(history) <= history && Carries(mode, t, old(world), world)
      ensures ok ==> a.pod.key in world.store && world.store[a.pod.key] == a
      ensures Quiet(old(schedule)) ==> Quiet(schedule) && world == if ok then Saved(old(world), a) else old(world)
      ensures Calm(old(schedule)) ==> Calm(schedule) && ok
    {
      ghost var start := world;
      NowSound();
      var works := Wait(t);
      if !works {
        return false;
      }
      SoundRecordCarried(mode, t, start, world, a);
      Act(t, Enter(a));
      return true;
    }

    /** Removing a record of a Pod that is gone, or any record in a run with GC. */
    method Delete(t: Thread, k: Key) returns (ok: bool)
      requires Valid() && (Gone(world, Owner(k)) || mode.gc)
      modifies this
      ensures Valid() && old(history) <= history && Carries(mode, t, old(world), world)
      ensures Quiet(old(schedule)) ==> Quiet(schedule) && world == if ok then Removed(old(world), k) else old(world)
      ensures Calm(old(schedule)) ==> Calm(schedule) && ok
    {
      ghost var start := world;
      NowSound();
      var works := Wait(t);
      if !works {
        return false;
      }
      if Gone(start, Owner(k)) {
        GoneCarried(mode, t, start, world, Owner(k));
      }
      Act(t, Forget(k));
      return true;
    }

    /** The reconcile pass removes a record of a Pod that still exists only beside
        another record of that Pod. */
    method DeleteSibling(k: Key, kept: Key) returns (ok: bool)
      requires Valid() && k != kept && Owner(k) == Owner(kept)
      requires Listed(mode, world, kept)
      modifies this
      ensures Valid() && old(history) <= history && Follows(mode, old(world), world)
      ensures forall j :: j != k && Listed(mode, old(world), j) ==> Listed(mode, world, j)
      ensures Quiet(old(schedule)) ==> Quiet(schedule) && world == if ok then Removed(old(world), k) else old(world)
      ensures Calm(old(schedule)) ==> Calm(schedule) && ok
    {
      ghost var start := world;
      NowSound();
      var works := Wait(ReconcilePass);
      ListedCarried(mode, start, world);
      if !works {
        return false;
      }
      ghost var before := world;
      Act(ReconcilePass, Supersede(k, kept));
      FollowsTransitive(mode, start, before, world);
      return true;
    }
  }
}
