/** What holds over every run of a node: the effects of its processes, in any order and
    cut short anywhere, among the changes of the cluster and the runtime. */
module NodeSafety {
  import opened Common
  import opened NodeWorld
  import opened NodeService
  import opened NodeReconcile

  /** What the API server, the scheduler and the container runtime do. */
  datatype Change =
    | CreatePod(name: nat, info: PodInfo) | RelabelPod(name: nat, labelled: bool) | PlacePod(name: nat, local: bool)
    | TerminatePod(name: nat) | DeletePod(name: nat)
    | SetBinding(uid: Uid, binding: BindingInfo) | DropBinding(uid: Uid)
    | NewNamespace(path: Path, ns: Namespace) | BindPath(path: Path, ns: Namespace) | Unmount(path: Path)

  /** UIDs and namespaces are never reused; the rest is free. */
  predicate Possible(w: World, c: Change) {
    match c
    case CreatePod(name, info) => name !in w.pods && PodRef(name, info.uid) !in w.issued
    case RelabelPod(name, _) => name in w.pods
    case PlacePod(name, _) => name in w.pods
    case TerminatePod(name) => name in w.pods
    case DeletePod(name) => name in w.pods
    case SetBinding(_, _) => true
    case DropBinding(_) => true
    case NewNamespace(_, ns) => ns !in w.policy
    case BindPath(_, ns) => ns in w.policy
    case Unmount(_) => true
  }

  function Changed(w: World, c: Change): World
    requires Possible(w, c)
  {
    match c
    case CreatePod(name, info) => w.(pods := w.pods[name := info], issued := w.issued + {PodRef(name, info.uid)})
    case RelabelPod(name, labelled) => w.(pods := w.pods[name := w.pods[name].(labelled := labelled)])
    case PlacePod(name, local) => w.(pods := w.pods[name := w.pods[name].(local := local)])
    case TerminatePod(name) => w.(pods := w.pods[name := w.pods[name].(terminating := true)])
    case DeletePod(name) => w.(pods := w.pods - {name})
    case SetBinding(uid, b) => w.(bindings := w.bindings[uid := b])
    case DropBinding(uid) => w.(bindings := w.bindings - {uid})
    case NewNamespace(path, ns) => w.(policy := w.policy[ns := Net(Unrestricted, None)], paths := w.paths[path := ns])
    case BindPath(path, ns) => w.(paths := w.paths[path := ns])
    case Unmount(path) => w.(paths := w.paths - {path})
  }

  lemma ChangeFollows(mode: Mode, w: World, c: Change)
    requires Sound(w) && Possible(w, c)
    ensures Follows(mode, w, Changed(w, c)) && RecordsKept(w, Changed(w, c))
  {
    var x := Changed(w, c);
    assert forall k :: k in w.store ==> RecordSound(w, k, w.store[k]);
    assert Sound(x);
    assert PodsKeepRecords(w, x);
    forall ref | ref in w.issued && Gone(w, ref) ensures Gone(x, ref) {
      if c.CreatePod? && ref.name == c.name {
        assert ref != PodRef(c.name, c.info.uid);
      }
    }
  }

  // ---- Runs ----

  datatype Step = ByProcess(thread: Thread, effect: Effect) | ByCluster(change: Change)

  predicate Takes(mode: Mode, w: World, step: Step, w': World) {
    match step
    case ByProcess(t, e) => Allowed(mode, t, w, e) && w' == After(w, e)
    case ByCluster(c) => Possible(w, c) && w' == Changed(w, c)
  }

  ghost predicate IsRun(mode: Mode, h: seq<World>, steps: seq<Step>) {
    && |h| == |steps| + 1 && Sound(h[0])
    && forall i :: 0 <= i < |steps| ==> Takes(mode, At(h, i), steps[i], At(h, i + 1))
  }

  lemma StepFollows(mode: Mode, w: World, step: Step, w': World)
    requires Sound(w) && Takes(mode, w, step, w')
    ensures Follows(mode, w, w')
  {
    match step
    case ByProcess(t, e) => EffectKeepsGuarantee(mode, t, w, e);
    case ByCluster(c) => ChangeFollows(mode, w, c);
  }

  /** Every world of a run of effects and changes follows every earlier one. */
  lemma {:induction false} RunsAreChains(mode: Mode, h: seq<World>, steps: seq<Step>)
    requires IsRun(mode, h, steps)
    ensures Chain(mode, h)
  {
    var n := |steps|;
    if n == 0 {
      FollowsReflexive(mode, h[0]);
    } else {
      var shorter := h[..n];
      assert IsRun(mode, shorter, steps[..n - 1]) by {
        forall i | 0 <= i < n - 1 ensures Takes(mode, At(shorter, i), steps[..n - 1][i], At(shorter, i + 1)) {
          assert Takes(mode, At(h, i), steps[i], At(h, i + 1));
        }
      }
      RunsAreChains(mode, shorter, steps[..n - 1]);
      assert Takes(mode, At(h, n - 1), steps[n - 1], At(h, n));
      assert Follows(mode, At(shorter, n - 1), At(shorter, n - 1));
      StepFollows(mode, h[n - 1], steps[n - 1], h[n]);
      ChainExtends(mode, shorter, h[n]);
      assert h == shorter + [h[n]];
    }
  }

  /** A recorded namespace is guarded, then and ever after. */
  lemma RecordedMeansGuarded(mode: Mode, h: seq<World>, steps: seq<Step>, i: nat, j: nat, k: Key)
    requires IsRun(mode, h, steps) && i <= j < |h| && k in h[i].store
    ensures Guarded(h[i], h[i].store[k].ns) && Guarded(h[j], h[i].store[k].ns)
  {
    RunsAreChains(mode, h, steps);
    assert Follows(mode, At(h, i), At(h, i)) && Follows(mode, At(h, i), At(h, j));
    assert RecordSound(h[i], k, h[i].store[k]);
  }

  /** No effect, no change and no failure makes a guarded namespace unrestricted. */
  lemma GuardsAreForever(mode: Mode, h: seq<World>, steps: seq<Step>, i: nat, j: nat, ns: Namespace)
    requires IsRun(mode, h, steps) && i <= j < |h| && Guarded(h[i], ns)
    ensures Guarded(h[j], ns)
  {
    RunsAreChains(mode, h, steps);
    assert Follows(mode, At(h, i), At(h, j));
  }

  /** Without GC, a Pod that once had a record has one until it is gone. */
  lemma EnrollmentIsSticky(mode: Mode, h: seq<World>, steps: seq<Step>, i: nat, j: nat, ref: PodRef)
    requires IsRun(mode, h, steps) && !mode.gc && i <= j < |h|
    requires HasRecord(h[i], ref) && !Gone(h[j], ref)
    ensures HasRecord(h[j], ref)
  {
    RunsAreChains(mode, h, steps);
    assert Follows(mode, At(h, i), At(h, j));
    var k :| k in h[i].store && Owner(k) == ref;
  }

  /** Under a held transition nothing is opened. */
  lemma HeldOpensNothing(mode: Mode, h: seq<World>, steps: seq<Step>, i: nat, j: nat, ns: Namespace)
    requires IsRun(mode, h, steps) && mode.held && i <= j < |h|
    requires ns in h[j].policy && h[j].policy[ns].rules.Open?
    ensures ns in h[i].policy && h[i].policy[ns].rules == h[j].policy[ns].rules
  {
    RunsAreChains(mode, h, steps);
    assert Follows(mode, At(h, i), At(h, j));
  }

  // ---- What a process relies on is what the others do ----

  /** The others' steps: not a second pass beside the pass, and no change of the path of a
      CNI call while it runs. */
  predicate Other(t: Thread, step: Step) {
    match step
    case ByProcess(u, _) => !t.ReconcilePass? || !u.ReconcilePass?
    case ByCluster(c) => t.CniCall? && (c.NewNamespace? || c.BindPath? || c.Unmount?) ==> c.path != t.path
  }

  /** Any number of their steps, in any order, is interference a process relies on. */
  lemma {:induction false} OthersMeetRely(mode: Mode, t: Thread, h: seq<World>, steps: seq<Step>, n: nat)
    requires IsRun(mode, h, steps) && n <= |steps| && forall i :: 0 <= i < |steps| ==> Other(t, steps[i])
    ensures Rely(mode, t, h[0], h[n])
  {
    if n == 0 {
      RelyReflexive(mode, t, h[0]);
    } else {
      OthersMeetRely(mode, t, h, steps, n - 1);
      var w, step := h[n - 1], steps[n - 1];
      assert Takes(mode, At(h, n - 1), step, At(h, n)) && Other(t, step);
      match step {
        case ByProcess(u, e) =>
          EffectKeepsGuarantee(mode, u, w, e);
          GuaranteeMeetsRely(mode, u, t, w, After(w, e));
        case ByCluster(c) =>
          ChangeFollows(mode, w, c);
      }
      RelyTransitive(mode, t, h[0], w, h[n]);
    }
  }

  // ---- A path that verification cannot tell apart ----

  const REF := PodRef(1, 1)
  const NS := Namespace(1, REF)
  const ID := PodIdentity(Key(Sandbox(1, REF), 1), 1)
  const FIRST_CONFIG := Config(1, 1, 1, 1, 1)
  const SECOND_CONFIG := Config(1, 1, 1, 1, 2)

  function RecordAt(generation: int): Attachment {
    Attachment(ID, NS, Ready, 1, generation, 1, 1)
  }

  function BindingAt(generation: int, c: Config): BindingInfo {
    BindingInfo(Binding(1, generation, 1, 1), c, 1, true, false)
  }

  function WorldWith(rules: Rules, generation: int, binding: BindingInfo): World {
    World(map[ID.key := RecordAt(generation)], map[NS := Net(rules, Some(Link(1, 1, {1}, Some(1))))], map[1 := NS],
          map[1 := PodInfo(1, true, false, true)], map[1 := binding], {REF})
  }

  /** A CNI call has read generation 1. The pass programs and records generation 2, then
      the call programs generation 1. */
  function OlderPathSteps(): seq<Step> {
    [ByCluster(SetBinding(1, BindingAt(2, SECOND_CONFIG))),
     ByProcess(ReconcilePass, Deny(1)), ByProcess(ReconcilePass, Permit(1, SECOND_CONFIG)),
     ByProcess(ReconcilePass, Enter(RecordAt(2))),
     ByProcess(CniCall(1), Deny(1)), ByProcess(CniCall(1), Permit(1, FIRST_CONFIG))]
  }

  function OlderPathWorlds(): seq<World> {
    var b := BindingAt(2, SECOND_CONFIG);
    [WorldWith(Open(FIRST_CONFIG), 1, BindingAt(1, FIRST_CONFIG)), WorldWith(Open(FIRST_CONFIG), 1, b),
     WorldWith(Denied, 1, b), WorldWith(Open(SECOND_CONFIG), 1, b), WorldWith(Open(SECOND_CONFIG), 2, b),
     WorldWith(Denied, 2, b), WorldWith(Open(FIRST_CONFIG), 2, b)]
  }

  lemma NamespaceSteps(rules: Rules, generation: int, b: BindingInfo, c: Config)
    requires c.vni == 1 && c.address == 1 && c.gateway == 1 && c.shape == 1
    ensures After(WorldWith(rules, generation, b), Deny(1)) == WorldWith(Denied, generation, b)
    ensures After(WorldWith(rules, generation, b), Permit(1, c)) == WorldWith(Open(c), generation, b)
  {
    assert {1} + {1} == {1};
  }

  lemma RecordStep(rules: Rules, b: BindingInfo, c: BindingInfo)
    requires !rules.Unrestricted?
    ensures After(WorldWith(rules, 1, b), Enter(RecordAt(2))) == WorldWith(rules, 2, b)
    ensures RecordSound(WorldWith(rules, 1, b), ID.key, RecordAt(2)) && Sound(WorldWith(rules, 1, b))
    ensures Changed(WorldWith(rules, 1, b), SetBinding(1, c)) == WorldWith(rules, 1, c)
  {
  }

  lemma OlderPathRun()
    ensures IsRun(Mode(false, false), OlderPathWorlds(), OlderPathSteps())
  {
    var b := BindingAt(2, SECOND_CONFIG);
    RecordStep(Open(FIRST_CONFIG), BindingAt(1, FIRST_CONFIG), b);
    NamespaceSteps(Open(FIRST_CONFIG), 1, b, SECOND_CONFIG);
    NamespaceSteps(Denied, 1, b, SECOND_CONFIG);
    RecordStep(Open(SECOND_CONFIG), b, b);
    NamespaceSteps(Open(SECOND_CONFIG), 2, b, FIRST_CONFIG);
    NamespaceSteps(Denied, 2, b, FIRST_CONFIG);
  }

  /** Nothing in that run fails, and the next check finds nothing wrong at its end: the
      record is current and verifies, while generation 1's path is in force. */
  lemma OlderPathSurvives()
    ensures var h := OlderPathWorlds();
            var end := h[|OlderPathSteps()|];
            && IsRun(Mode(false, false), h, OlderPathSteps())
            && Bound(h[0], REF, Binding(1, 1, 1, 1), FIRST_CONFIG)
            && Bound(end, REF, Binding(1, 2, 1, 1), SECOND_CONFIG)
            && Misread(end, RecordAt(2)) && Checked(end, 1, SECOND_CONFIG) == end
            && end.store[ID.key] == RecordAt(2) && end.policy[NS].rules == Open(FIRST_CONFIG)
  {
    OlderPathRun();
  }
}
