/** The chained CNI plugin, internal/cni/plugin.go. */
module CniPlugin {
  import opened Common
  import opened NodeWorld
  import opened NodeService

  lemma IssuedCarried(mode: Mode, t: Thread, w: World, w': World, ref: PodRef)
    requires Sound(w) && Carries(mode, t, w, w') && ref in w.issued
    ensures ref in w'.issued
  {
    FromCarries(mode, t, w, w');
  }

  lemma PathCarried(mode: Mode, path: Path, w: World, w': World)
    requires Sound(w) && Carries(mode, CniCall(path), w, w')
    ensures path in w.paths <==> path in w'.paths
    ensures path in w.paths ==> w'.paths[path] == w.paths[path]
  {
    FromCarries(mode, CniCall(path), w, w');
  }

  /** The path leads to a namespace of the call's own, issued Pod. */
  predicate Nameable(w: World, id: PodIdentity, ns: Namespace) {
    id.netns in w.paths && w.paths[id.netns] == ns && ns.owner == Owner(id.key) && Owner(id.key) in w.issued
  }

  /** What the record of a CNI call will need. */
  predicate Recordable(w: World, id: PodIdentity, ns: Namespace) {
    Nameable(w, id, ns) && Guarded(w, ns)
  }

  lemma RecordableCarried(mode: Mode, w: World, w': World, id: PodIdentity, ns: Namespace)
    requires Sound(w) && Carries(mode, CniCall(id.netns), w, w') && Recordable(w, id, ns)
    ensures Recordable(w', id, ns)
  {
    FromCarries(mode, CniCall(id.netns), w, w');
  }

  /** Once a Pod has had a record, a listing misses it only when the Pod is gone. */
  lemma MissingMeansGone(mode: Mode, h: seq<World>, ref: PodRef, recorded: nat, listed: nat)
    requires Chain(mode, h) && !mode.gc && recorded <= listed < |h|
    requires HasRecord(h[recorded], ref) && !HasRecord(h[listed], ref)
    ensures Gone(h[|h| - 1], ref)
  {
    assert Follows(mode, At(h, recorded), At(h, listed)) && Follows(mode, At(h, listed), At(h, |h| - 1));
    var k :| k in h[recorded].store && Owner(k) == ref;
  }

  ghost predicate EverRecorded(h: seq<World>, ref: PodRef) {
    exists i :: 0 <= i < |h| && HasRecord(h[i], ref)
  }

  predicate GuardedAt(w: World, path: Path) {
    path in w.paths && Guarded(w, w.paths[path])
  }

  /** How an ADD ended: with a guard, or without one because no record of the Pod was
      listed and the Pod then carried no label. */
  datatype Ending = Refused | Guard | Unenrolled(listed: nat, resolved: nat)

  ghost predicate WasUnenrolled(h: seq<World>, start: nat, ref: PodRef, e: Ending) {
    && e.Unenrolled? && start <= e.listed <= e.resolved < |h|
    && !HasRecord(h[e.listed], ref)
    && LookUp(h[e.resolved], ref).Found? && !LookUp(h[e.resolved], ref).info.labelled
  }

  lemma Unforgotten(mode: Mode, before: seq<World>, h: seq<World>, ref: PodRef, e: Ending)
    requires Chain(mode, h) && 0 < |before| && before <= h
    ensures !mode.gc && WasUnenrolled(h, |before| - 1, ref, e) && EverRecorded(before, ref) ==> Gone(h[|h| - 1], ref)
  {
    if !mode.gc && WasUnenrolled(h, |before| - 1, ref, e) && EverRecorded(before, ref) {
      var i :| 0 <= i < |before| && HasRecord(before[i], ref);
      assert h[i] == before[i];
      MissingMeansGone(mode, h, ref, i, e.listed);
    }
  }

  predicate ReadyRecord(w: World, id: PodIdentity, ns: Namespace) {
    id.key in w.store && w.store[id.key].pod == id && w.store[id.key].ns == ns && w.store[id.key].phase.Ready?
  }

  lemma DeniedRecordable(mode: Mode, w: World, w': World, id: PodIdentity, ns: Namespace)
    requires Sound(w) && Carries(mode, CniCall(id.netns), w, w')
    requires Nameable(w, id, ns) && GuardedAt(w', id.netns)
    ensures Recordable(w', id, ns)
  {
    FromCarries(mode, CniCall(id.netns), w, w');
  }

  /** A record disappears only with its live namespace denied, unless the identity of
      that namespace could not be read. */
  ghost predicate CollectedOne(w: World, w': World, k: Key, a: Attachment, unread: bool) {
    && (w'.store == w.store || w'.store == w.store - {k}) && w'.paths == w.paths
    && (k !in w'.store && k in w.store && Live(w, a) && !unread ==> IsDenied(w', a.ns))
    && forall ns :: IsDenied(w, ns) ==> IsDenied(w', ns)
  }

  ghost predicate Collected(w: World, w': World, valid: set<Key>, unread: set<Key>) {
    && w'.store.Keys <= w.store.Keys && w'.paths == w.paths
    && (forall k :: k in w'.store ==> w'.store[k] == w.store[k])
    && (forall k :: k in w.store && k !in w'.store ==>
      k !in valid && (Live(w, w.store[k]) && k !in unread ==> IsDenied(w', w.store[k].ns)))
  }

  lemma DenialsStay(w: World, w': World, path: Path)
    ensures w' == w || (PolicyOnly(w, w', path) && DeniedAt(w', path)) ==>
              forall ns :: IsDenied(w, ns) ==> IsDenied(w', ns)
  {
    if PolicyOnly(w, w', path) && DeniedAt(w', path) {
      forall ns | IsDenied(w, ns) ensures IsDenied(w', ns) {
        assert ns == w'.paths[path] || SamePolicy(w, w', ns);
      }
    }
  }

  lemma CollectedStep(w: World, x: World, y: World, valid: set<Key>, k: Key, unread: set<Key>, failed: bool)
    requires Collected(w, x, valid, unread) && k in w.store && k !in valid && CollectedOne(x, y, k, w.store[k], failed)
    ensures Collected(w, y, valid, if failed then unread + {k} else unread)
  {
  }

  /** The binding a labelled Pod is given. */
  function Awaited(w: World, ref: PodRef): Option<Binding> {
    if LookUp(w, ref).Found? && LookUp(w, ref).info.labelled then CurrentBinding(w, ref) else None
  }

  /** When an undisturbed enrollment succeeds. */
  predicate Enrollable(mode: Mode, w: World, ref: PodRef) {
    !mode.held && Awaited(w, ref).Some? && ValidBinding(Awaited(w, ref).value, ref.uid)
  }

  lemma SameEnrollable(mode: Mode, w: World, w': World, id: PodIdentity)
    ensures PolicyOnly(w, w', id.netns) || w' == w ==>
              Enrollable(mode, w', Owner(id.key)) == Enrollable(mode, w, Owner(id.key))
  {
  }

  /** The namespace is guarded and its Ready record stands. During the call the record's
      binding was current, the namespace denied and then exactly that binding's path in
      force. */
  ghost predicate Activated(h: seq<World>, start: int, w: World, a: Attachment, c: Config, trail: Trail) {
    && Recordable(w, a.pod, a.ns) && ReadyRecord(w, a.pod, a.ns)
    && Prepared(h, start, a.pod, NamedBinding(w.store[a.pod.key]), c, trail)
  }

  ghost predicate StillDenied(w: World, w': World, a: Attachment) {
    && (DeniedAt(w, a.pod.netns) ==> DeniedAt(w', a.pod.netns))
    && (a.pod.key in w.store ==> a.pod.key in w'.store)
  }

  /** What was activated for the recorded binding, during the whole call. */
  lemma ActivatedSince(
    h: seq<World>, start: int, earlier: int, w: World, a: Attachment, bound: Attachment, c: Config, trail: Trail)
    requires earlier <= start && a.pod == bound.pod && a.ns == bound.ns && Activated(h, start, w, bound, c, trail)
    ensures Activated(h, earlier, w, a, c, trail)
  {
  }

  lemma SavedAuthorizes(w: World, a: Attachment, b: Binding)
    ensures Authorized(Saved(w, a), Owner(a.pod.key), b) == Authorized(w, Owner(a.pod.key), b)
    ensures DeniedAt(w, a.pod.netns) ==> DeniedAt(Saved(w, a), a.pod.netns)
    ensures a.pod.key in Saved(w, a).store
  {
  }

  predicate RecordedSucceeds(mode: Mode, w: World, id: PodIdentity, ns: Namespace, a: Attachment) {
    && a.pod == id && a.ns == ns
    && ((a.phase.Ready? && !mode.held && Authorized(w, Owner(id.key), NamedBinding(a)))
        || Enrollable(mode, w, Owner(id.key)))
  }

  predicate UnrecordedSucceeds(mode: Mode, w: World, ref: PodRef) {
    if HasRecord(w, ref) then Enrollable(mode, w, ref)
    else LookUp(w, ref).Found? && (LookUp(w, ref).info.labelled ==> Enrollable(mode, w, ref))
  }

  /** When an undisturbed ADD succeeds. */
  predicate AddSucceeds(mode: Mode, w: World, id: PodIdentity) {
    && id.netns in w.paths
    && if id.key in w.store then RecordedSucceeds(mode, w, id, w.paths[id.netns], w.store[id.key])
      else UnrecordedSucceeds(mode, w, Owner(id.key))
  }

  predicate CheckSucceeds(mode: Mode, w: World, id: PodIdentity) {
    && id.netns in w.paths && ReadyRecord(w, id, w.paths[id.netns])
    && !mode.held && Authorized(w, Owner(id.key), NamedBinding(w.store[id.key]))
  }

  datatype Times = Times(denied: int, bound: int, ready: int)

  class Plugin {
    const node: Node
    const service: Service

    constructor (service: Service)
      ensures this.service == service && node == service.node
    {
      this.service := service;
      this.node := service.node;
    }

    /** Retry until the agent answers or the attempts run out. */
    method Resolve(t: Thread, ref: PodRef, attempts: nat) returns (r: PodLookup)
      requires node.Valid() && service.node == node
      modifies node
      ensures node.Valid() && old(node.history) <= node.history && Carries(node.mode, t, old(node.world), node.world)
      ensures r.Found? ==> r == LookUp(node.world, ref)
      ensures Calm(old(node.schedule)) ==>
                Calm(node.schedule) && node.world == old(node.world) && (attempts > 0 ==> r == LookUp(node.world, ref))
    {
      r := Failed;
      var left := attempts;
      while left > 0 && !r.Found?
        invariant node.Valid() && old(node.history) <= node.history
        invariant Carries(node.mode, t, old(node.world), node.world)
        invariant left <= attempts
        invariant Calm(old(node.schedule)) ==>
                  Calm(node.schedule) && node.world == old(node.world)
                    && (left < attempts ==> r == LookUp(node.world, ref))
        invariant r.Found? ==> r == LookUp(node.world, ref)
      {
        r := service.Pod(t, ref);
        left := left - 1;
      }
    }

    /** Binding requires the label still to be there. */
    method AwaitBinding(t: Thread, ref: PodRef, attempts: nat) returns (r: Option<Binding>)
      requires node.Valid() && service.node == node
      modifies node
      ensures node.Valid() && old(node.history) <= node.history && Carries(node.mode, t, old(node.world), node.world)
      ensures Calm(old(node.schedule)) ==>
                Calm(node.schedule) && node.world == old(node.world) && (attempts > 0 ==> r == Awaited(node.world, ref))
    {
      r := None;
      var left := attempts;
      while left > 0 && r.None?
        invariant node.Valid() && old(node.history) <= node.history
        invariant Carries(node.mode, t, old(node.world), node.world)
        invariant left == attempts ==> r.None?
        invariant left <= attempts
        invariant Calm(old(node.schedule)) ==>
                  Calm(node.schedule) && node.world == old(node.world)
                    && (left < attempts ==> r == Awaited(node.world, ref))
      {
        var pod := service.Pod(t, ref);
        if pod.Found? && pod.info.labelled {
          var binding := service.BindingOf(t, ref);
          r := if binding.Some? then Some(binding.value.reference) else None;
        }
        left := left - 1;
      }
    }

    /** Deny the namespace, then record the denied attachment. */
    method RecordDenied(attachment: Attachment) returns (ok: bool)
      requires node.Valid() && Nameable(node.world, attachment.pod, attachment.ns)
      modifies node
      ensures node.Valid() && old(node.history) <= node.history
      ensures Carries(node.mode, CniCall(attachment.pod.netns), old(node.world), node.world)
      ensures ok ==> Recordable(node.world, attachment.pod, attachment.ns)
      ensures Calm(old(node.schedule)) ==>
                Calm(node.schedule) && ok
                  && node.world == Saved(Locked(old(node.world), attachment.pod.netns), attachment)
    {
      var t, id, ns := CniCall(attachment.pod.netns), attachment.pod, attachment.ns;
      ghost var start := node.world;
      node.NowSound();
      var denied := node.Lockdown(t, id.netns);
      if !denied {
        return false;
      }
      DeniedRecordable(node.mode, start, node.world, id, ns);
      ghost var guarded := node.world;
      node.NowSound();
      ok := node.Save(t, attachment);
      if !ok {
        var _ := node.Cleanup(t, id.netns);
        return;
      }
      RecordableCarried(node.mode, guarded, node.world, id, ns);
    }

    /** ADD of an enrolled Pod: deny, record, wait for the binding, prepare, record. */
    method Enroll(id: PodIdentity, ns: Namespace, attempts: nat, times: Times)
      returns (ok: bool, ghost c: Config, ghost trail: Trail)
      requires node.Valid() && service.node == node && Nameable(node.world, id, ns)
      modifies node
      ensures node.Valid() && old(node.history) <= node.history
      ensures Carries(node.mode, CniCall(id.netns), old(node.world), node.world)
      ensures ok ==>
                Activated(node.history, |old(node.history)| - 1, node.world,
                          Attachment(id, ns, LockedDown, NO_UID, 0, NO_UID, times.denied), c, trail) && !node.mode.held
      ensures Calm(old(node.schedule)) && attempts > 0 ==> ok == Enrollable(node.mode, old(node.world), Owner(id.key))
      ensures Calm(old(node.schedule)) && !ok ==> DeniedAt(node.world, id.netns) && id.key in node.world.store
    {
      var attachment := Attachment(id, ns, LockedDown, NO_UID, 0, NO_UID, times.denied);
      var recorded := RecordDenied(attachment);
      if !recorded {
        return false, Config(0, 0, 0, 0, 0), NO_TRAIL;
      }
      ok, c, trail := Allocate(attachment, attempts, times);
    }

    /** Wait for the Pod's binding and record it, with the denial retained. */
    method Allocate(attachment: Attachment, attempts: nat, times: Times)
      returns (ok: bool, ghost c: Config, ghost trail: Trail)
      requires node.Valid() && service.node == node
      requires Recordable(node.world, attachment.pod, attachment.ns)
      modifies node
      ensures node.Valid() && old(node.history) <= node.history
      ensures Carries(node.mode, CniCall(attachment.pod.netns), old(node.world), node.world)
      ensures ok ==>
                Activated(node.history, |old(node.history)| - 1, node.world, attachment, c, trail) && !node.mode.held
      ensures Calm(old(node.schedule)) && attempts > 0 ==>
                ok == Enrollable(node.mode, old(node.world), Owner(attachment.pod.key))
      ensures Calm(old(node.schedule)) && !ok ==> StillDenied(old(node.world), node.world, attachment)
    {
      var id := attachment.pod;
      ghost var start := node.world;
      node.NowSound();
      var binding := AwaitBinding(CniCall(id.netns), Owner(id.key), attempts);
      if binding.None? || !ValidBinding(binding.value, Owner(id.key).uid) {
        return false, Config(0, 0, 0, 0, 0), NO_TRAIL;
      }
      RecordableCarried(node.mode, start, node.world, id, attachment.ns);
      ok, c, trail := Bind(attachment, binding.value, times);
    }

    /** Record the binding, then activate it. */
    method Bind(attachment: Attachment, b: Binding, times: Times)
      returns (ok: bool, ghost c: Config, ghost trail: Trail)
      requires node.Valid() && service.node == node
      requires Recordable(node.world, attachment.pod, attachment.ns) && ValidBinding(b, Owner(attachment.pod.key).uid)
      modifies node
      ensures node.Valid() && old(node.history) <= node.history
      ensures Carries(node.mode, CniCall(attachment.pod.netns), old(node.world), node.world)
      ensures ok ==>
                Activated(node.history, |old(node.history)| - 1, node.world, attachment, c, trail) && !node.mode.held
      ensures Calm(old(node.schedule)) ==>
                ok == (!node.mode.held && Authorized(old(node.world), Owner(attachment.pod.key), b))
      ensures Calm(old(node.schedule)) && !ok ==> StillDenied(old(node.world), node.world, attachment)
    {
      var id := attachment.pod;
      ghost var start := node.world;
      node.NowSound();
      var bound := attachment.(
        bindingUid := b.uid, generation := b.generation, gatewayUid := b.gatewayUid, updatedAt := times.bound);
      assert NamedBinding(bound) == b;
      var recorded := node.Save(CniCall(id.netns), bound);
      if !recorded {
        return false, Config(0, 0, 0, 0, 0), NO_TRAIL;
      }
      RecordableCarried(node.mode, start, node.world, id, attachment.ns);
      SavedAuthorizes(start, bound, b);
      ghost var at := |node.history| - 1;
      ok, c, trail := Activate(bound, times.ready);
      if ok {
        ActivatedSince(node.history, at, |old(node.history)| - 1, node.world, attachment, bound, c, trail);
      }
    }

    /** Have the agent prepare the recorded binding, then record it Ready. */
    method Activate(bound: Attachment, now: int) returns (ok: bool, ghost c: Config, ghost trail: Trail)
      requires node.Valid() && service.node == node
      requires Recordable(node.world, bound.pod, bound.ns)
      modifies node
      ensures node.Valid() && old(node.history) <= node.history
      ensures Carries(node.mode, CniCall(bound.pod.netns), old(node.world), node.world)
      ensures ok ==> Activated(node.history, |old(node.history)| - 1, node.world, bound, c, trail) && !node.mode.held
      ensures Calm(old(node.schedule)) ==>
                ok == (!node.mode.held && Authorized(old(node.world), Owner(bound.pod.key), NamedBinding(bound)))
      ensures Calm(old(node.schedule)) && !ok ==> StillDenied(old(node.world), node.world, bound)
    {
      var id := bound.pod;
      ghost var start := node.world;
      node.NowSound();
      var prepared;
      prepared, c, trail := service.Prepare(CniCall(id.netns), id, NamedBinding(bound));
      if !prepared {
        return false, Config(0, 0, 0, 0, 0), NO_TRAIL;
      }
      RecordableCarried(node.mode, start, node.world, id, bound.ns);
      ghost var ready := node.world;
      node.NowSound();
      ok := node.Save(CniCall(id.netns), bound.(phase := Ready, updatedAt := now));
      RecordableCarried(node.mode, ready, node.world, id, bound.ns);
    }

    /** ADD with no record under its key: sticky enrollment first, then the label. */
    method AddUnrecorded(id: PodIdentity, ns: Namespace, attempts: nat, times: Times)
      returns (ok: bool, ghost e: Ending)
      requires node.Valid() && service.node == node
      requires id.netns in node.world.paths && node.world.paths[id.netns] == ns && ns.owner == Owner(id.key)
      modifies node
      ensures node.Valid() && old(node.history) <= node.history
      ensures ok == !e.Refused?
      ensures e.Guard? ==> GuardedAt(node.world, id.netns)
      ensures e.Unenrolled? ==> WasUnenrolled(node.history, |old(node.history)| - 1, Owner(id.key), e)
      ensures Calm(old(node.schedule)) && attempts > 0 ==>
                ok == UnrecordedSucceeds(node.mode, old(node.world), Owner(id.key))
    {
      var t, ref := CniCall(id.netns), Owner(id.key);
      ghost var start := node.world;
      node.NowSound();
      var listed := node.Wait(t);
      if !listed {
        return false, Refused;
      }
      var sticky := HasRecord(node.world, ref);
      ghost var at := |node.history| - 1;
      if sticky {
        IssuedNow(ref);
      } else {
        var pod := Resolve(t, ref, attempts);
        if !pod.Found? {
          return false, Refused;
        }
        if !pod.info.labelled {
          return true, Unenrolled(at, |node.history| - 1);
        }
        IssuedNow(ref);
      }
      PathCarried(node.mode, id.netns, start, node.world);
      ghost var c, trail;
      ok, c, trail := Enroll(id, ns, attempts, times);
      e := if ok then Guard else Refused;
    }

    lemma IssuedNow(ref: PodRef)
      requires node.Valid() && (HasRecord(node.world, ref) || LookUp(node.world, ref).Found?)
      ensures ref in node.world.issued
    {
      node.NowSound();
      if HasRecord(node.world, ref) {
        var k :| k in node.world.store && Owner(k) == ref;
        assert RecordSound(node.world, k, node.world.store[k]);
      }
    }

    /** ADD under a key that has a record: it must be the same sandbox and namespace. */
    method AddRecorded(id: PodIdentity, ns: Namespace, existing: Attachment, attempts: nat, times: Times)
      returns (ok: bool)
      requires node.Valid() && service.node == node && RecordSound(node.world, id.key, existing)
      requires id.netns in node.world.paths && node.world.paths[id.netns] == ns && ns.owner == Owner(id.key)
      modifies node
      ensures node.Valid() && old(node.history) <= node.history
      ensures ok ==> existing.pod == id && existing.ns == ns && GuardedAt(node.world, id.netns)
      ensures Calm(old(node.schedule)) && attempts > 0 ==>
                ok == RecordedSucceeds(node.mode, old(node.world), id, ns, existing)
    {
      var t := CniCall(id.netns);
      if existing.pod != id || existing.ns != ns {
        return false;
      }
      ghost var start := node.world;
      node.NowSound();
      if existing.phase == Ready {
        ghost var c, at;
        ok, c, at := service.Check(t, id, NamedBinding(existing));
        RecordableCarried(node.mode, start, node.world, id, ns);
        if ok {
          return;
        }
      }
      SameEnrollable(node.mode, start, node.world, id);
      ghost var c, trail;
      ok, c, trail := Enroll(id, ns, attempts, times);
    }

    /** The namespace at the request's path and the record under its key. */
    method Load(id: PodIdentity) returns (ok: bool, ns: Namespace, existing: Option<Attachment>)
      requires node.Valid() && service.node == node
      modifies node
      ensures node.Valid() && old(node.history) <= node.history
      ensures ok ==>
                id.netns in old(node.world).paths && id.netns in node.world.paths
                  && node.world.paths[id.netns] == ns == old(node.world).paths[id.netns]
      ensures ok && existing.Some? ==> RecordSound(node.world, id.key, existing.value)
      ensures Calm(old(node.schedule)) ==>
                Calm(node.schedule) && node.world == old(node.world) && ok == (id.netns in node.world.paths)
      ensures Calm(old(node.schedule)) && ok ==>
                existing == if id.key in node.world.store then Some(node.world.store[id.key]) else None
    {
      var t := CniCall(id.netns);
      ghost var start := node.world;
      node.NowSound();
      ns, existing := Namespace(0, PodRef(0, NO_UID)), None;
      var identity := service.Identity(t, id.netns);
      if !identity.Is? {
        return false, ns, None;
      }
      ok := node.Wait(t);
      PathCarried(node.mode, id.netns, start, node.world);
      node.NowSound();
      ns := identity.ns;
      existing := if id.key in node.world.store then Some(node.world.store[id.key]) else None;
    }

    /** ADD. The runtime names a namespace of the Pod's own sandbox. */
    method Add(id: PodIdentity, attempts: nat, times: Times) returns (ok: bool, ghost e: Ending)
      requires node.Valid() && service.node == node
      requires id.netns in node.world.paths ==> node.world.paths[id.netns].owner == Owner(id.key)
      modifies node
      ensures node.Valid() && old(node.history) <= node.history
      ensures ok == !e.Refused?
      ensures e.Guard? ==> GuardedAt(node.world, id.netns)
      ensures e.Unenrolled? ==> WasUnenrolled(node.history, |old(node.history)| - 1, Owner(id.key), e)
      ensures ok && !node.mode.gc && EverRecorded(old(node.history), Owner(id.key))
              && !Gone(node.world, Owner(id.key)) ==>
                GuardedAt(node.world, id.netns)
      ensures Calm(old(node.schedule)) && attempts > 0 ==> ok == AddSucceeds(node.mode, old(node.world), id)
    {
      var loads, ns, existing := Load(id);
      if !loads {
        return false, Refused;
      }
      if existing.Some? {
        ok := AddRecorded(id, ns, existing.value, attempts, times);
        e := if ok then Guard else Refused;
      } else {
        ok, e := AddUnrecorded(id, ns, attempts, times);
        Unforgotten(node.mode, old(node.history), node.history, Owner(id.key), e);
      }
    }

    /** CHECK: a recorded Ready attachment whose path the agent confirms. */
    method Check(id: PodIdentity) returns (ok: bool, ghost c: Config)
      requires node.Valid() && service.node == node
      modifies node
      ensures node.Valid() && old(node.history) <= node.history
      ensures Carries(node.mode, CniCall(id.netns), old(node.world), node.world)
      ensures ok ==> !node.mode.held
      ensures Quiet(old(node.schedule)) ==> Quiet(node.schedule) && PolicyOnly(old(node.world), node.world, id.netns)
      ensures Quiet(old(node.schedule)) && ok ==>
                id.netns in node.world.paths && ReadyRecord(node.world, id, node.world.paths[id.netns])
                && Bound(node.world, Owner(id.key), NamedBinding(node.world.store[id.key]), c)
                && Looks(node.world, id.netns, c)
      ensures Calm(old(node.schedule)) ==> ok == CheckSucceeds(node.mode, old(node.world), id)
      ensures Calm(old(node.schedule)) && ok ==> node.world == Checked(old(node.world), id.netns, c)
    {
      var t := CniCall(id.netns);
      var loads := node.Wait(t);
      if !loads || id.key !in node.world.store {
        return false, Config(0, 0, 0, 0, 0);
      }
      var attachment := node.world.store[id.key];
      var identity := service.Identity(t, id.netns);
      if attachment.pod != id || identity != Is(attachment.ns) || attachment.phase != Ready {
        return false, Config(0, 0, 0, 0, 0);
      }
      ghost var at;
      ok, c, at := service.Check(t, id, NamedBinding(attachment));
    }

    /** DEL of a Pod that is gone: withdraw, deny the exact namespace, forget. */
    method Release(attachment: Attachment, path: Path) returns (ok: bool)
      requires node.Valid() && service.node == node && Gone(node.world, Owner(attachment.pod.key))
      modifies node
      ensures node.Valid() && old(node.history) <= node.history
      ensures Carries(node.mode, CniRelease, old(node.world), node.world)
      ensures Quiet(old(node.schedule)) && ok ==>
                node.world.store == old(node.world.store) - {attachment.pod.key}
                  && node.world.paths == old(node.world.paths)
      ensures Quiet(old(node.schedule)) && ok && Live(old(node.world), attachment)
              && attachment.pod.key in old(node.world.store)
              && old(node.world.store)[attachment.pod.key] == attachment ==>
                IsDenied(node.world, attachment.ns)
      ensures Calm(old(node.schedule)) && attachment.pod.key in old(node.world.store)
              && old(node.world.store)[attachment.pod.key] == attachment ==>
                ok == !LookUp(old(node.world), Owner(attachment.pod.key)).Failed?
    {
      var t := CniRelease;
      ghost var start := node.world;
      node.NowSound();
      var identity := service.Identity(t, path);
      if identity.Unknown? {
        return false;
      }
      var withdrawn := service.Withdraw(t, attachment.pod);
      if !withdrawn {
        return false;
      }
      GoneCarried(node.mode, t, start, node.world, Owner(attachment.pod.key));
      ok := Forget(attachment.pod.key, if identity == Is(attachment.ns) then Some(path) else None);
    }

    /** Deny the namespace at the path, if there is one, and remove the record. */
    method Forget(key: Key, path: Option<Path>) returns (ok: bool)
      requires node.Valid() && Gone(node.world, Owner(key))
      modifies node
      ensures node.Valid() && old(node.history) <= node.history
      ensures Carries(node.mode, CniRelease, old(node.world), node.world)
      ensures Quiet(old(node.schedule)) && ok ==>
                && node.world.store == old(node.world.store) - {key} && node.world.paths == old(node.world.paths)
                && forall ns :: IsDenied(old(node.world), ns) ==> IsDenied(node.world, ns)
      ensures Calm(old(node.schedule)) ==> ok == (path.Some? ==> path.value in old(node.world).paths)
    {
      ghost var start := node.world;
      node.NowSound();
      if path.Some? {
        var cleaned := node.Cleanup(CniRelease, path.value);
        DenialsStay(start, node.world, path.value);
        if !cleaned {
          return false;
        }
      }
      GoneCarried(node.mode, CniRelease, start, node.world, Owner(key));
      ok := node.Delete(CniRelease, key);
    }

    /** DEL: the record of a Pod that still exists is retained, and says success. */
    method Delete(key: Key, netns: Option<Path>) returns (ok: bool)
      requires node.Valid() && service.node == node
      modifies node
      ensures node.Valid() && old(node.history) <= node.history
      ensures Carries(node.mode, CniRelease, old(node.world), node.world)
      ensures Quiet(old(node.schedule)) && key in old(node.world.store) && !Gone(old(node.world), Owner(key)) ==>
                node.world == old(node.world)
      ensures Quiet(old(node.schedule)) && ok
              && (key in old(node.world.store) ==> Gone(old(node.world), Owner(key))) ==>
                node.world.store == old(node.world.store) - {key}
      ensures Quiet(old(node.schedule)) && ok && key in old(node.world.store) && Gone(old(node.world), Owner(key))
              && Live(old(node.world), old(node.world.store)[key]) ==>
                IsDenied(node.world, old(node.world.store)[key].ns)
      ensures Calm(old(node.schedule)) ==>
                ok == (key in old(node.world.store) ==>
                  LookUp(old(node.world), Owner(key)).Found? || LookUp(old(node.world), Owner(key)).Absent?)
    {
      var t := CniRelease;
      var loads := node.Wait(t);
      if !loads {
        return false;
      }
      if key !in node.world.store {
        return true;
      }
      var attachment := node.world.store[key];
      ghost var start := node.world;
      node.NowSound();
      assert RecordSound(start, key, attachment);
      var pod := service.Pod(t, Owner(key));
      if pod.Failed? || pod.OtherUid? {
        return false;
      }
      if pod.Found? && !pod.info.terminating {
        return true;
      }
      IssuedCarried(node.mode, t, start, node.world, Owner(key));
      ok := Release(attachment, if netns.Some? then netns.value else attachment.pod.netns);
    }

    /** One record the runtime no longer names. */
    method Collect(k: Key, attachment: Attachment) returns (ok: bool, ghost unread: bool)
      requires node.Valid() && service.node == node && node.mode.gc
      modifies node
      ensures node.Valid() && old(node.history) <= node.history
      ensures Carries(node.mode, CniRelease, old(node.world), node.world)
      ensures Quiet(old(node.schedule)) ==>
                Quiet(node.schedule) && CollectedOne(old(node.world), node.world, k, attachment, unread)
      ensures Quiet(old(node.schedule)) && ok ==> k !in node.world.store
      ensures Calm(old(node.schedule)) ==> Calm(node.schedule) && ok && !unread
    {
      var t := CniRelease;
      var identity := service.Identity(t, attachment.pod.netns);
      unread := identity.Unknown?;
      if identity == Is(attachment.ns) {
        ghost var before := node.world;
        var cleaned := node.Cleanup(t, attachment.pod.netns);
        DenialsStay(before, node.world, attachment.pod.netns);
        if !cleaned {
          return false, unread;
        }
      }
      ok := node.Delete(t, k);
    }

    /** GC: drop every record the runtime does not name, denying live ones first. */
    method GC(valid: set<Key>) returns (ok: bool, ghost unread: set<Key>)
      requires node.Valid() && service.node == node && node.mode.gc
      modifies node
      ensures node.Valid() && old(node.history) <= node.history
      ensures Carries(node.mode, CniRelease, old(node.world), node.world)
      ensures Quiet(old(node.schedule)) ==> Collected(old(node.world), node.world, valid, unread)
      ensures Quiet(old(node.schedule)) && ok ==> node.world.store.Keys <= valid
      ensures Calm(old(node.schedule)) ==> ok && unread == {}
    {
      var listed := node.Wait(CniRelease);
      unread := {};
      if !listed {
        return false, {};
      }
      ok := true;
      var records := node.world.store;
      var todo := records.Keys - valid;
      while todo != {}
        invariant todo <= records.Keys - valid
        invariant node.Valid() && old(node.history) <= node.history
        invariant Carries(node.mode, CniRelease, old(node.world), node.world)
        invariant Calm(old(node.schedule)) ==> Calm(node.schedule) && ok && unread == {}
        invariant Quiet(old(node.schedule)) ==>
                  Quiet(node.schedule) && records == old(node.world).store
                    && Collected(old(node.world), node.world, valid, unread)
        invariant Quiet(old(node.schedule)) && ok ==> node.world.store.Keys <= valid + todo
      {
        var k :| k in todo;
        todo := todo - {k};
        ghost var before := node.world;
        ghost var failed;
        var collected;
        collected, failed := Collect(k, records[k]);
        ok := ok && collected;
        if Quiet(old(node.schedule)) {
          CollectedStep(old(node.world), before, node.world, valid, k, unread, failed);
        }
        unread := if failed then unread + {k} else unread;
      }
    }
  }
}
