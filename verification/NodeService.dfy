/** The node agent, internal/nodeagent/service.go. */
module NodeService {
  import opened Common
  import opened NodeWorld

  // Times are nanoseconds since the zero time.
  const ZERO_TIME := 0
  const LOCKED_DOWN_RECONCILE_DELAY := 45_000_000_000

  predicate Young(a: Attachment, now: int) {
    a.updatedAt != ZERO_TIME && now - a.updatedAt < LOCKED_DOWN_RECONCILE_DELAY
  }

  predicate Live(w: World, a: Attachment) {
    a.pod.netns in w.paths && w.paths[a.pod.netns] == a.ns
  }

  predicate ValidBinding(b: Binding, podUid: Uid) {
    b.uid != NO_UID && b.generation >= 1 && b.podUid != NO_UID && b.gatewayUid != NO_UID && b.podUid == podUid
  }

  /** The binding a record names. */
  function NamedBinding(a: Attachment): Binding {
    Binding(a.bindingUid, a.generation, Owner(a.pod.key).uid, a.gatewayUid)
  }

  datatype PodLookup = Found(info: PodInfo) | Absent | OtherUid | Failed

  function LookUp(w: World, ref: PodRef): PodLookup {
    if ref.name !in w.pods then Absent
    else if w.pods[ref.name].uid != ref.uid then OtherUid
    else if !w.pods[ref.name].local then Failed
    else Found(w.pods[ref.name])
  }

  /** The usable binding of a Pod. */
  function Usable(w: World, ref: PodRef): Option<BindingInfo> {
    if ref.uid !in w.bindings then None
    else
      var b := w.bindings[ref.uid];
      if b.reference.podUid == ref.uid && !b.deleting && b.podName == ref.name && b.local && b.reference.uid != NO_UID
      then Some(b) else None
  }

  function CurrentBinding(w: World, ref: PodRef): Option<Binding> {
    if Usable(w, ref).Some? then Some(Usable(w, ref).value.reference) else None
  }

  /** The Pod's current binding is the given one and asks for the given configuration. */
  predicate Bound(w: World, ref: PodRef, b: Binding, c: Config) {
    Usable(w, ref).Some? && Usable(w, ref).value.reference == b && Usable(w, ref).value.config == c
  }

  /** Points of a run: where the binding was read, the namespace denied, and exactly the
      binding's path put in force. */
  datatype Trail = Trail(bound: nat, denied: nat, exact: nat)

  const NO_TRAIL := Trail(0, 0, 0)

  ghost predicate BoundAt(h: seq<World>, start: int, ref: PodRef, b: Binding, c: Config, i: nat) {
    start <= i < |h| && Bound(h[i], ref, b, c)
  }

  ghost predicate OpenedAt(h: seq<World>, start: int, path: Path, c: Config, denied: nat, exact: nat) {
    start <= denied < exact < |h| && DeniedAt(h[denied], path) && Exactly(h[exact], path, c)
  }

  predicate Authorized(w: World, ref: PodRef, requested: Binding) {
    ValidBinding(requested, ref.uid) && LookUp(w, ref).Found? && CurrentBinding(w, ref) == Some(requested)
  }

  /** The binding was current and, after a denial, exactly its path was put in force; at
      the end verification cannot tell the path from it. */
  ghost predicate Prepared(h: seq<World>, start: int, id: PodIdentity, b: Binding, c: Config, trail: Trail) {
    BoundAt(h, start, Owner(id.key), b, c, trail.bound)
      && OpenedAt(h, start + 1, id.netns, c, trail.denied, trail.exact)
  }

  /** What an undisturbed check makes of a world: a path that verifies is left as it is,
      another is denied and programmed. */
  function Checked(w: World, path: Path, c: Config): World {
    if Looks(w, path, c) then w else Opened(Locked(w, path), path, c)
  }

  /** A passed check leaves exactly the path asked for, if and only if it did not find one
      that it cannot tell from it. */
  lemma CheckedExactly(w: World, path: Path, c: Config)
    requires path in w.paths
    ensures Looks(Checked(w, path, c), path, c)
    ensures Exactly(Checked(w, path, c), path, c) <==> (Looks(w, path, c) ==> Exactly(w, path, c))
  {
  }

  datatype IdentityLookup = Is(ns: Namespace) | NoFile | Unknown

  class Service {
    const node: Node

    constructor (node: Node)
      ensures this.node == node
    {
      this.node := node;
    }

    method Identity(t: Thread, path: Path) returns (r: IdentityLookup)
      requires node.Valid()
      modifies node
      ensures node.Valid() && old(node.history) <= node.history && Carries(node.mode, t, old(node.world), node.world)
      ensures r.Is? ==> path in node.world.paths && node.world.paths[path] == r.ns
      ensures r.NoFile? ==> path !in node.world.paths
      ensures Quiet(old(node.schedule)) ==> Quiet(node.schedule) && node.world == old(node.world)
      ensures Calm(old(node.schedule)) ==> Calm(node.schedule) && !r.Unknown?
    {
      var works := node.Wait(t);
      if !works {
        return Unknown;
      }
      return if path in node.world.paths then Is(node.world.paths[path]) else NoFile;
    }

    method Pod(t: Thread, ref: PodRef) returns (r: PodLookup)
      requires node.Valid()
      modifies node
      ensures node.Valid() && old(node.history) <= node.history && Carries(node.mode, t, old(node.world), node.world)
      ensures r.Failed? || r == LookUp(node.world, ref)
      ensures Quiet(old(node.schedule)) ==> Quiet(node.schedule) && node.world == old(node.world)
      ensures Calm(old(node.schedule)) ==> Calm(node.schedule) && r == LookUp(node.world, ref)
    {
      var works := node.Wait(t);
      return if works then LookUp(node.world, ref) else Failed;
    }

    method BindingOf(t: Thread, ref: PodRef) returns (r: Option<BindingInfo>)
      requires node.Valid()
      modifies node
      ensures node.Valid() && old(node.history) <= node.history && Carries(node.mode, t, old(node.world), node.world)
      ensures r.Some? ==> r == Usable(node.world, ref)
      ensures Quiet(old(node.schedule)) ==> Quiet(node.schedule) && node.world == old(node.world)
      ensures Calm(old(node.schedule)) ==> Calm(node.schedule) && r == Usable(node.world, ref)
    {
      var works := node.Wait(t);
      return if works then Usable(node.world, ref) else None;
    }

    /** The exact Pod and its current binding back the request; what that binding asks for
        is returned. */
    method Authority(t: Thread, ref: PodRef, requested: Binding) returns (r: Option<Config>, ghost at: nat)
      requires node.Valid()
      modifies node
      ensures node.Valid() && old(node.history) <= node.history && Carries(node.mode, t, old(node.world), node.world)
      ensures r.Some? ==>
                ValidBinding(requested, ref.uid)
                  && BoundAt(node.history, |old(node.history)| - 1, ref, requested, r.value, at)
      ensures Quiet(old(node.schedule)) ==> Quiet(node.schedule) && node.world == old(node.world)
      ensures Quiet(old(node.schedule)) && r.Some? ==> Bound(node.world, ref, requested, r.value)
      ensures Calm(old(node.schedule)) ==> Calm(node.schedule) && r.Some? == Authorized(node.world, ref, requested)
    {
      if !ValidBinding(requested, ref.uid) {
        return None, 0;
      }
      var pod := Pod(t, ref);
      if !pod.Found? {
        return None, 0;
      }
      var binding := BindingOf(t, ref);
      if binding.None? || binding.value.reference != requested {
        return None, 0;
      }
      at := |node.history| - 1;
      var parsed := node.Wait(t);
      r := if parsed then Some(binding.value.config) else None;
    }

    /** Deny, program, verify. A failed program is denied again only by prepare. */
    method Program(t: Thread, id: PodIdentity, c: Config, denyAgain: bool)
      returns (ok: bool, ghost denied: nat, ghost exact: nat)
      requires node.Valid() && !node.mode.held
      modifies node
      ensures node.Valid() && old(node.history) <= node.history && Carries(node.mode, t, old(node.world), node.world)
      ensures ok ==> Looks(node.world, id.netns, c)
      ensures ok ==> OpenedAt(node.history, |old(node.history)|, id.netns, c, denied, exact)
      ensures Quiet(old(node.schedule)) ==> Quiet(node.schedule) && PolicyOnly(old(node.world), node.world, id.netns)
      ensures Quiet(old(node.schedule)) && ok ==> Exactly(node.world, id.netns, c)
      ensures Calm(old(node.schedule)) ==> Calm(node.schedule) && ok == (id.netns in old(node.world).paths)
      ensures Calm(old(node.schedule)) ==>
                node.world == if ok then Opened(Locked(old(node.world), id.netns), id.netns, c) else old(node.world)
    {
      var locks := node.Lockdown(t, id.netns);
      if !locks {
        return false, 0, 0;
      }
      denied := |node.history| - 1;
      ghost var locked := node.world;
      LockedOnly(old(node.world), id.netns);
      ok, exact := Open(t, id, c, denyAgain);
      PolicyOnlyTransitive(old(node.world), locked, node.world, id.netns);
    }

    /** The second half of it, after the denial. */
    method Open(t: Thread, id: PodIdentity, c: Config, denyAgain: bool) returns (ok: bool, ghost exact: nat)
      requires node.Valid() && !node.mode.held && DeniedAt(node.world, id.netns)
      modifies node
      ensures node.Valid() && old(node.history) <= node.history && Carries(node.mode, t, old(node.world), node.world)
      ensures ok ==>
                Looks(node.world, id.netns, c) && |old(node.history)| <= exact < |node.history|
                  && Exactly(node.history[exact], id.netns, c)
      ensures Quiet(old(node.schedule)) ==> Quiet(node.schedule) && PolicyOnly(old(node.world), node.world, id.netns)
      ensures Quiet(old(node.schedule)) && ok ==> Exactly(node.world, id.netns, c)
      ensures Calm(old(node.schedule)) ==>
                Calm(node.schedule) && ok && node.world == Opened(old(node.world), id.netns, c)
    {
      var programmed := node.Configure(t, id.netns, c);
      ok, exact := false, 0;
      if programmed {
        exact := |node.history| - 1;
        ok := node.Verify(t, id.netns, c);
      }
      if !ok && (programmed || denyAgain) {
        ghost var before := node.world;
        var _ := node.Lockdown(t, id.netns);
        LockedOnly(before, id.netns);
        PolicyOnlyTransitive(old(node.world), before, node.world, id.netns);
      }
    }

    /** prepare: only with authority, and never without denying first. */
    method PrepareNow(t: Thread, id: PodIdentity, requested: Binding)
      returns (ok: bool, ghost c: Config, ghost trail: Trail)
      requires node.Valid() && !node.mode.held
      modifies node
      ensures node.Valid() && old(node.history) <= node.history && Carries(node.mode, t, old(node.world), node.world)
      ensures ok ==>
                Looks(node.world, id.netns, c)
                  && Prepared(node.history, |old(node.history)| - 1, id, requested, c, trail)
      ensures Quiet(old(node.schedule)) ==> Quiet(node.schedule) && PolicyOnly(old(node.world), node.world, id.netns)
      ensures Quiet(old(node.schedule)) && ok ==>
                Bound(node.world, Owner(id.key), requested, c) && Exactly(node.world, id.netns, c)
      ensures Calm(old(node.schedule)) ==>
                Calm(node.schedule)
                  && ok == (Authorized(node.world, Owner(id.key), requested) && id.netns in node.world.paths)
      ensures Calm(old(node.schedule)) && !ok ==> node.world == old(node.world)
    {
      ghost var bound, denied, exact;
      var config;
      config, bound := Authority(t, Owner(id.key), requested);
      if config.None? {
        return false, Config(0, 0, 0, 0, 0), NO_TRAIL;
      }
      c := config.value;
      ok, denied, exact := Program(t, id, config.value, true);
      trail := Trail(bound, denied, exact);
    }

    method Prepare(t: Thread, id: PodIdentity, requested: Binding)
      returns (ok: bool, ghost c: Config, ghost trail: Trail)
      requires node.Valid()
      modifies node
      ensures node.Valid() && old(node.history) <= node.history && Carries(node.mode, t, old(node.world), node.world)
      ensures ok ==>
                !node.mode.held && Looks(node.world, id.netns, c)
                  && Prepared(node.history, |old(node.history)| - 1, id, requested, c, trail)
      ensures Quiet(old(node.schedule)) ==> Quiet(node.schedule) && PolicyOnly(old(node.world), node.world, id.netns)
      ensures Quiet(old(node.schedule)) && ok ==>
                Bound(node.world, Owner(id.key), requested, c) && Exactly(node.world, id.netns, c)
      ensures Calm(old(node.schedule)) ==>
                Calm(node.schedule)
                  && ok == (!node.mode.held && Authorized(node.world, Owner(id.key), requested)
                      && id.netns in node.world.paths)
      ensures Calm(old(node.schedule)) && !ok ==> node.world == old(node.world)
    {
      var healthy := node.Wait(t);
      if node.mode.held || !healthy {
        return false, Config(0, 0, 0, 0, 0), NO_TRAIL;
      }
      ok, c, trail := PrepareNow(t, id, requested);
    }

    /** check: a path that verifies is left alone; another is denied before it is
        repaired. */
    method CheckNow(t: Thread, id: PodIdentity, requested: Binding) returns (ok: bool, ghost c: Config, ghost at: nat)
      requires node.Valid() && !node.mode.held
      modifies node
      ensures node.Valid() && old(node.history) <= node.history && Carries(node.mode, t, old(node.world), node.world)
      ensures ok ==>
                Looks(node.world, id.netns, c)
                  && BoundAt(node.history, |old(node.history)| - 1, Owner(id.key), requested, c, at)
      ensures Quiet(old(node.schedule)) ==> Quiet(node.schedule) && PolicyOnly(old(node.world), node.world, id.netns)
      ensures Quiet(old(node.schedule)) && ok ==> Bound(node.world, Owner(id.key), requested, c)
      ensures Calm(old(node.schedule)) ==>
                Calm(node.schedule)
                  && ok == (Authorized(node.world, Owner(id.key), requested) && id.netns in node.world.paths)
      ensures Calm(old(node.schedule)) && ok ==> node.world == Checked(old(node.world), id.netns, c)
      ensures Calm(old(node.schedule)) && !ok && id.netns in node.world.paths ==> DeniedAt(node.world, id.netns)
    {
      var config;
      config, at := Authority(t, Owner(id.key), requested);
      if config.None? {
        var _ := node.Lockdown(t, id.netns);
        return false, Config(0, 0, 0, 0, 0), 0;
      }
      c := config.value;
      var verified := node.Verify(t, id.netns, config.value);
      if verified {
        return true, c, at;
      }
      ghost var denied, exact;
      ok, denied, exact := Program(t, id, config.value, false);
    }

    method Check(t: Thread, id: PodIdentity, requested: Binding) returns (ok: bool, ghost c: Config, ghost at: nat)
      requires node.Valid()
      modifies node
      ensures node.Valid() && old(node.history) <= node.history && Carries(node.mode, t, old(node.world), node.world)
      ensures ok ==>
                !node.mode.held && Looks(node.world, id.netns, c)
                  && BoundAt(node.history, |old(node.history)| - 1, Owner(id.key), requested, c, at)
      ensures Quiet(old(node.schedule)) ==> Quiet(node.schedule) && PolicyOnly(old(node.world), node.world, id.netns)
      ensures Quiet(old(node.schedule)) && ok ==> Bound(node.world, Owner(id.key), requested, c)
      ensures Calm(old(node.schedule)) ==>
                Calm(node.schedule)
                  && ok == (!node.mode.held && Authorized(node.world, Owner(id.key), requested)
                      && id.netns in node.world.paths)
      ensures Calm(old(node.schedule)) && ok ==> node.world == Checked(old(node.world), id.netns, c)
      ensures Calm(old(node.schedule)) && !ok && id.netns in node.world.paths ==> DeniedAt(node.world, id.netns)
    {
      var healthy := node.Wait(t);
      if node.mode.held || !healthy {
        var _ := node.Lockdown(t, id.netns);
        return false, Config(0, 0, 0, 0, 0), 0;
      }
      ok, c, at := CheckNow(t, id, requested);
    }

    /** publish: read the exact binding and report its withdrawal. */
    method PublishWithdrawal(t: Thread) returns (ok: bool)
      requires node.Valid()
      modifies node
      ensures node.Valid() && old(node.history) <= node.history && Carries(node.mode, t, old(node.world), node.world)
      ensures Quiet(old(node.schedule)) ==> Quiet(node.schedule) && node.world == old(node.world)
      ensures Calm(old(node.schedule)) ==> Calm(node.schedule) && ok
    {
      ok := node.Wait(t);
    }

    method DenyExact(t: Thread, a: Attachment, present: bool) returns (ok: bool)
      requires node.Valid()
      modifies node
      ensures node.Valid() && old(node.history) <= node.history && Carries(node.mode, t, old(node.world), node.world)
      ensures Quiet(old(node.schedule)) ==> Quiet(node.schedule) && PolicyOnly(old(node.world), node.world, a.pod.netns)
      ensures Quiet(old(node.schedule)) && ok && Live(old(node.world), a) ==> IsDenied(node.world, a.ns)
      ensures Quiet(old(node.schedule)) ==> node.world == old(node.world) || DeniedAt(node.world, a.pod.netns)
      ensures Calm(old(node.schedule)) ==> Calm(node.schedule) && ok
    {
      var identity := Identity(t, a.pod.netns);
      if identity != Is(a.ns) {
        return !identity.Unknown?;
      }
      if present {
        ok := node.Lockdown(t, a.pod.netns);
      } else {
        ok := node.Cleanup(t, a.pod.netns);
      }
    }

    /** withdrawAttachment: deny the exact namespace of a record and publish. */
    method WithdrawAttachment(t: Thread, a: Attachment) returns (ok: bool)
      requires node.Valid()
      modifies node
      ensures node.Valid() && old(node.history) <= node.history && Carries(node.mode, t, old(node.world), node.world)
      ensures Quiet(old(node.schedule)) ==> Quiet(node.schedule) && PolicyOnly(old(node.world), node.world, a.pod.netns)
      ensures Quiet(old(node.schedule)) && ok && Live(old(node.world), a) ==> IsDenied(node.world, a.ns)
      ensures Calm(old(node.schedule)) ==> Calm(node.schedule) && ok == !LookUp(node.world, Owner(a.pod.key)).Failed?
    {
      var pod := Pod(t, Owner(a.pod.key));
      if pod.Failed? {
        return false;
      }
      var denied := DenyExact(t, a, pod.Found? && !pod.info.terminating);
      if !denied {
        return false;
      }
      ok := PublishWithdrawal(t);
    }

    /** Withdraw: only for an exact durable record. */
    method Withdraw(t: Thread, id: PodIdentity) returns (ok: bool)
      requires node.Valid()
      modifies node
      ensures node.Valid() && old(node.history) <= node.history && Carries(node.mode, t, old(node.world), node.world)
      ensures Quiet(old(node.schedule)) ==> Quiet(node.schedule) && PolicyOnly(old(node.world), node.world, id.netns)
      ensures Quiet(old(node.schedule)) && ok ==>
                id.key in node.world.store && node.world.store[id.key].pod == id
                  && (Live(node.world, node.world.store[id.key]) ==> IsDenied(node.world, node.world.store[id.key].ns))
      ensures Calm(old(node.schedule)) ==>
                Calm(node.schedule)
                  && ok == (id.key in node.world.store && node.world.store[id.key].pod == id
                      && !LookUp(node.world, Owner(id.key)).Failed?)
    {
      var listed := node.Wait(t);
      if !listed || id.key !in node.world.store || node.world.store[id.key].pod != id {
        return false;
      }
      ok := WithdrawAttachment(t, node.world.store[id.key]);
    }
  }
}
