/** The node agent's passes over the durable records, internal/nodeagent/service.go:
    LockdownAll and ReconcileAll. */
module NodeReconcile {
  import opened Common
  import opened NodeWorld
  import opened NodeService

  type Group = map<Key, Attachment>

  /** What a pass knows of the records it listed, whatever the CNI calls do meanwhile. */
  ghost predicate Evidence(mode: Mode, w: World, group: Group) {
    forall k :: k in group ==> RecordSound(w, k, group[k]) && Listed(mode, w, k)
  }

  lemma EvidenceCarried(mode: Mode, w: World, w': World, group: Group)
    requires Sound(w) && Evidence(mode, w, group) && Carries(mode, ReconcilePass, w, w')
    ensures Evidence(mode, w', group)
  {
    FromCarries(mode, ReconcilePass, w, w');
    forall k | k in group ensures RecordSound(w', k, group[k]) && Listed(mode, w', k) {
      assert RecordSound(w, k, group[k]) && Listed(mode, w, k);
    }
  }

  function RecordsOf(w: World, uid: Uid): Group {
    map k | k in w.store && Owner(k).uid == uid :: w.store[k]
  }

  // ---- What an undisturbed pass establishes ----

  ghost predicate Frame(w: World, w': World, uid: Uid) {
    && w' == w.(store := w'.store, policy := w'.policy)
    && (forall k :: Owner(k).uid != uid ==>
      (k in w.store <==> k in w'.store) && (k in w.store ==> w'.store[k] == w.store[k]))
    && forall ns: Namespace :: ns.owner.uid != uid ==> SamePolicy(w, w', ns)
  }

  /** The record's binding is the Pod's current one, by UID, gateway and generation. */
  predicate Current(w: World, a: Attachment) {
    CurrentBinding(w, Owner(a.pod.key)) == Some(NamedBinding(a))
  }

  function WantedConfig(w: World, a: Attachment): Config
    requires Current(w, a)
  {
    Usable(w, Owner(a.pod.key)).value.config
  }

  /** And the path in force is one that verification cannot tell from the wanted one. */
  predicate Backed(w: World, a: Attachment) {
    Current(w, a) && Looks(w, a.pod.netns, WantedConfig(w, a))
  }

  /** And the path in force is exactly the wanted one. */
  predicate Intact(w: World, a: Attachment) {
    Current(w, a) && Exactly(w, a.pod.netns, WantedConfig(w, a))
  }

  /** The record already names the current binding, and another path than the wanted one
      is in force that verification cannot tell from it. */
  predicate Misread(w: World, a: Attachment) {
    Backed(w, a) && !Intact(w, a)
  }

  predicate LiveRecord(w: World, uid: Uid, k: Key) {
    k in w.store && Owner(k).uid == uid && Live(w, w.store[k])
  }

  ghost predicate OneSandbox(w: World, uid: Uid) {
    forall j, k :: LiveRecord(w, uid, j) && LiveRecord(w, uid, k) ==> j == k
  }

  ghost predicate ReadyBacked(w: World, uid: Uid) {
    forall k :: LiveRecord(w, uid, k) && w.store[k].phase.Ready? ==> Backed(w, w.store[k])
  }

  ghost predicate Settled(w: World, uid: Uid) {
    OneSandbox(w, uid) && ReadyBacked(w, uid)
  }

  /** Which live Ready records end with exactly their wanted path in force: all but those
      that were misread. */
  ghost predicate GroupExact(w: World, w': World, uid: Uid) {
    forall k :: LiveRecord(w', uid, k) && w'.store[k].phase.Ready? ==> ExactRecord(w, w', k)
  }

  predicate ExactRecord(w: World, w': World, k: Key)
    requires k in w'.store
  {
    && k in w.store && w'.store[k].pod == w.store[k].pod && w'.store[k].ns == w.store[k].ns
    && (Intact(w', w'.store[k]) <==> !Misread(w, w.store[k]))
  }

  /** Records disappear with their Pod, or beside its one verified Ready record once
      they are no longer young attempts. */
  ghost predicate RemovedWell(w: World, w': World, now: int) {
    forall k :: k in w.store && k !in w'.store ==> Gone(w, Owner(k)) || Superseded(w, w', k, now)
  }

  ghost predicate Superseded(w: World, w': World, k: Key, now: int)
    requires k in w.store
  {
    && !(w.store[k].phase.LockedDown? && Young(w.store[k], now))
    && exists j :: j in w'.store && Owner(j) == Owner(k) && w'.store[j].phase.Ready? && Live(w', w'.store[j])
         && Backed(w', w'.store[j])
  }

  ghost predicate AllLive(w: World, group: Group, keys: set<Key>, uid: Uid)
    requires keys <= group.Keys
  {
    forall k :: k in keys ==> Live(w, group[k]) && group[k].ns.owner.uid == uid
  }

  function Without(w: World, keys: set<Key>): World {
    w.(store := w.store - keys)
  }

  lemma WithoutStep(w: World, gone: set<Key>, k: Key)
    ensures Removed(Without(w, gone), k) == Without(w, gone + {k})
  {
    assert w.store - gone - {k} == w.store - (gone + {k});
  }

  predicate Holds(w: World, a: Attachment) {
    a.pod.key in w.store && w.store[a.pod.key] == a && Live(w, a) && a.phase.Ready?
  }

  /** Only the record's own entry and its own namespace changed. */
  ghost predicate Adopted(w: World, w': World, a: Attachment) {
    var k := a.pod.key;
    && k in w'.store && w'.store[k].pod == a.pod && w'.store[k].ns == a.ns && w'.store[k].phase == a.phase
    && w' == w.(store := w.store[k := w'.store[k]], policy := w'.policy)
    && forall ns :: ns != a.ns ==> SamePolicy(w, w', ns)
  }

  /** The binding is the one the record names, at any generation. */
  predicate Names(b: Binding, a: Attachment) {
    b.uid == a.bindingUid && b.gatewayUid == a.gatewayUid && b.podUid == Owner(a.pod.key).uid
  }

  lemma AdoptedUnsaved(w: World, w': World, a: Attachment)
    ensures Holds(w, a) && PolicyOnly(w, w', a.pod.netns) ==> Adopted(w, w', a)
  {
    if Holds(w, a) && PolicyOnly(w, w', a.pod.netns) {
      assert w.store[a.pod.key := a] == w.store;
    }
  }

  lemma AdoptedSaved(w: World, x: World, w': World, a: Attachment, next: Attachment, b: Binding, c: Config)
    requires next == a.(generation := b.generation, updatedAt := next.updatedAt)
    ensures Holds(w, a) && PolicyOnly(w, x, a.pod.netns) && w' == Saved(x, next) ==> Adopted(w, w', a)
    ensures Names(b, a) && Bound(x, Owner(a.pod.key), b, c) && Exactly(x, a.pod.netns, c) && w' == Saved(x, next) ==>
              Intact(w', w'.store[a.pod.key])
  {
    if PolicyOnly(w, x, a.pod.netns) && Holds(w, a) && w' == Saved(x, next) {
      assert forall ns :: SamePolicy(w, x, ns) ==> SamePolicy(w, w', ns);
    }
  }

  lemma RecordCarried(mode: Mode, w: World, w': World, a: Attachment)
    requires Sound(w) && Carries(mode, ReconcilePass, w, w') && RecordSound(w, a.pod.key, a)
    ensures RecordSound(w', a.pod.key, a)
  {
    FromCarries(mode, ReconcilePass, w, w');
  }

  /** The Pod's current binding is the one the record names, and the Pod is there. */
  predicate Adoptable(w: World, a: Attachment) {
    var ref := Owner(a.pod.key);
    CurrentBinding(w, ref).Some? && Names(CurrentBinding(w, ref).value, a)
      && Authorized(w, ref, CurrentBinding(w, ref).value)
  }

  /** The record's binding has moved on to another generation. */
  predicate Newer(w: World, a: Attachment) {
    var b := CurrentBinding(w, Owner(a.pod.key));
    b.Some? && Names(b.value, a) && b.value.generation != a.generation
  }

  /** When a pass that nothing disturbs succeeds for a Pod UID: its records agree on
      the Pod, and the Pod is gone or has at most one live record, locked down or
      adoptable. */
  predicate Reconcilable(w: World, uid: Uid) {
    var group := RecordsOf(w, uid);
    && (forall j, k :: j in group && k in group ==> Owner(j) == Owner(k))
    && forall k :: k in group ==> PodFine(w, Owner(k), AllFine(w, group))
  }

  predicate AllFine(w: World, group: Group) {
    forall k :: k in group ==> LiveFine(w, group, k)
  }

  ghost predicate Ambiguous(w: World, group: Group) {
    exists j, k :: j in group && k in group && j != k && Live(w, group[j]) && Live(w, group[k])
  }

  lemma FineSame(w: World, w': World, group: Group)
    requires w' == w.(store := w'.store, policy := w'.policy)
    ensures AllFine(w', group) == AllFine(w, group)
  {
    assert forall k :: k in group ==> LiveFine(w', group, k) == LiveFine(w, group, k);
  }

  predicate PodFine(w: World, ref: PodRef, fine: bool) {
    !LookUp(w, ref).Failed? && (Gone(w, ref) || fine)
  }

  lemma SameReconcilable(w: World, w': World, uid: Uid)
    requires w' == w.(store := w'.store, policy := w'.policy) && RecordsOf(w', uid) == RecordsOf(w, uid)
    ensures Reconcilable(w', uid) == Reconcilable(w, uid)
  {
    FineSame(w, w', RecordsOf(w, uid));
    assert forall ref, fine :: PodFine(w', ref, fine) == PodFine(w, ref, fine);
  }

  lemma AgreedReconcilable(w: World, group: Group, first: Key)
    requires first in group && group == RecordsOf(w, Owner(first).uid)
    requires forall k :: k in group ==> Owner(k) == Owner(first)
    ensures Reconcilable(w, Owner(first).uid) == PodFine(w, Owner(first), AllFine(w, group))
  {
  }

  predicate LiveFine(w: World, group: Group, k: Key)
    requires k in group
  {
    Live(w, group[k]) ==>
      (forall j :: j in group && Live(w, group[j]) ==> j == k) && (group[k].phase.LockedDown? || Adoptable(w, group[k]))
  }

  function Stale(group: Group, kept: Key, now: int): set<Key> {
    set k | k in group && k != kept && !(group[k].phase.LockedDown? && Young(group[k], now))
  }

  /** The group is all the Pod's records, and k is the only live one. */
  ghost predicate OnlyLive(w: World, group: Group, k: Key) {
    && k in group && group == RecordsOf(w, Owner(k).uid) && Sound(w) && Live(w, group[k])
    && forall j :: j in group && Live(w, group[j]) ==> j == k
  }

  /** What an undisturbed pass over the records of one Pod UID does. */
  ghost predicate GroupDone(w: World, w': World, uid: Uid, now: int, ok: bool) {
    Frame(w, w', uid) && RemovedWell(w, w', now) && (ok ==> Settled(w', uid))
  }

  ghost predicate ListedKept(mode: Mode, w: World, w': World, except: set<Key>) {
    Follows(mode, w, w') && forall j :: j !in except && Listed(mode, w, j) ==> Listed(mode, w', j)
  }

  lemma ListedKeptTransitive(mode: Mode, w: World, x: World, y: World, except: set<Key>, k: Key)
    requires Sound(w) && ListedKept(mode, w, x, except) && k in except
    requires Follows(mode, x, y) && forall j :: j != k && Listed(mode, x, j) ==> Listed(mode, y, j)
    ensures ListedKept(mode, w, y, except)
  {
    FollowsTransitive(mode, w, x, y);
  }

  lemma LockedDownDone(w: World, w': World, group: Group, k: Key, now: int, ok: bool)
    requires k in group && group[k].phase.LockedDown?
    ensures OnlyLive(w, group, k) && (w' == w || w' == Locked(w, group[k].pod.netns)) ==>
              GroupDone(w, w', Owner(k).uid, now, ok) && GroupExact(w, w', Owner(k).uid)
  {
    if OnlyLive(w, group, k) && (w' == w || w' == Locked(w, group[k].pod.netns)) {
      var uid := Owner(k).uid;
      assert RecordSound(w, k, w.store[k]);
      forall j | LiveRecord(w', uid, j) ensures j == k {
        assert j in group && Live(w, group[j]);
      }
    }
  }

  lemma SiblingsDone(w: World, x: World, gone: set<Key>, group: Group, k: Key, now: int, backed: bool)
    requires k in group && gone <= Stale(group, k, now) && (!backed ==> gone == {})
    requires forall j :: j in group ==> Owner(j) == Owner(k)
    ensures OnlyLive(w, group, k) && Adopted(w, x, group[k]) && group[k].phase.Ready?
            && (backed ==> Backed(x, x.store[group[k].pod.key])) ==>
              GroupDone(w, Without(x, gone), Owner(k).uid, now, backed)
  {
    var y, uid := Without(x, gone), Owner(k).uid;
    if OnlyLive(w, group, k) && Adopted(w, x, group[k]) && group[k].phase.Ready?
       && (backed ==> Backed(x, x.store[group[k].pod.key])) {
      assert RecordSound(w, k, w.store[k]);
      assert k in y.store && y.store[k] == x.store[k];
      forall j | LiveRecord(y, uid, j) ensures j == k {
        assert j in group && Live(w, group[j]);
      }
      forall j | j in w.store && j !in y.store ensures Superseded(w, y, j, now) {
        assert j in gone && Owner(j) == Owner(k);
      }
      forall ns: Namespace | ns.owner.uid != uid ensures SamePolicy(w, y, ns) {
        assert SamePolicy(w, x, ns);
      }
    }
  }

  lemma SiblingsExact(w: World, x: World, gone: set<Key>, group: Group, k: Key, now: int)
    requires k in group && gone <= Stale(group, k, now)
    ensures OnlyLive(w, group, k) && Adopted(w, x, group[k])
            && (Intact(x, x.store[group[k].pod.key]) <==> !Misread(w, group[k])) ==>
              GroupExact(w, Without(x, gone), Owner(k).uid)
  {
    var y, uid := Without(x, gone), Owner(k).uid;
    if OnlyLive(w, group, k) && Adopted(w, x, group[k])
       && (Intact(x, x.store[group[k].pod.key]) <==> !Misread(w, group[k])) {
      assert RecordSound(w, k, w.store[k]);
      forall j | LiveRecord(y, uid, j) && y.store[j].phase.Ready? ensures ExactRecord(w, y, j) {
        assert j in group && Live(w, group[j]);
      }
    }
  }

  lemma WithdrawnDone(w: World, w': World, group: Group, uid: Uid, gone: set<Key>, now: int, ok: bool)
    requires gone <= group.Keys && (ok ==> gone == group.Keys)
    ensures group == RecordsOf(w, uid) && (forall k :: k in group ==> Gone(w, Owner(k))) && Frame(w, w', uid)
            && w'.store == w.store - gone ==>
              GroupDone(w, w', uid, now, ok) && (ok ==> GroupExact(w, w', uid))
  {
  }

  lemma WithoutFrame(w: World, x: World, gone: set<Key>, uid: Uid)
    requires forall k :: k in gone ==> Owner(k).uid == uid
    ensures Frame(w, x, uid) ==> Frame(w, Without(x, gone), uid)
  {
    assert forall ns :: SamePolicy(w, x, ns) ==> SamePolicy(w, Without(x, gone), ns);
  }

  lemma DeniedDone(w: World, w': World, uid: Uid, now: int)
    ensures Frame(w, w', uid) && w'.store == w.store ==> GroupDone(w, w', uid, now, false)
  {
  }

  lemma NoneLiveDone(w: World, group: Group, uid: Uid, now: int)
    requires forall k :: k in group ==> !Live(w, group[k])
    ensures group == RecordsOf(w, uid) ==> GroupDone(w, w, uid, now, true) && GroupExact(w, w, uid)
  {
    if group == RecordsOf(w, uid) {
      assert forall k :: LiveRecord(w, uid, k) ==> k in group;
    }
  }

  lemma OwnersOf(mode: Mode, w: World, group: Group, keys: set<Key>, uid: Uid)
    requires Evidence(mode, w, group) && keys <= group.Keys && forall k :: k in group ==> Owner(k).uid == uid
    ensures (forall k :: k in keys ==> Live(w, group[k])) ==> AllLive(w, group, keys, uid)
  {
    assert forall k :: k in group ==> RecordSound(w, k, group[k]);
  }

  /** Policies changed, if at all, to denial. */
  ghost predicate DeniedOnly(w: World, w': World) {
    w' == w.(policy := w'.policy) && forall ns :: IsDenied(w', ns) || SamePolicy(w, w', ns)
  }

  ghost predicate AllDenied(w: World, keys: set<Key>) {
    forall k :: k in keys && k in w.store && Live(w, w.store[k]) ==> IsDenied(w, w.store[k].ns)
  }

  lemma DeniedStep(w: World, x: World, y: World, path: Path, keys: set<Key>)
    requires DeniedOnly(w, x) && (y == x || (PolicyOnly(x, y, path) && DeniedAt(y, path)))
    ensures DeniedOnly(w, y) && (AllDenied(x, keys) ==> AllDenied(y, keys))
  {
    forall ns ensures (IsDenied(y, ns) || SamePolicy(w, y, ns)) && (IsDenied(x, ns) ==> IsDenied(y, ns)) {
      assert IsDenied(x, ns) || SamePolicy(w, x, ns);
      assert y == x || (ns == x.paths[path] && IsDenied(y, ns)) || SamePolicy(x, y, ns);
    }
  }

  /** The listed records of the Pods still to be visited. */
  function Rest(records: Group, todo: set<Uid>): Group {
    map k | k in records && Owner(k).uid in todo :: records[k]
  }

  lemma EvidenceOfRest(mode: Mode, w: World, w': World, records: Group, todo: set<Uid>, uid: Uid)
    requires Evidence(mode, w, Rest(records, todo)) && Follows(mode, w, w')
    requires forall j :: j !in Rest(records, {uid}) && Listed(mode, w, j) ==> Listed(mode, w', j)
    ensures Evidence(mode, w', Rest(records, todo - {uid}))
  {
    var before, after := Rest(records, todo), Rest(records, todo - {uid});
    forall k | k in after ensures RecordSound(w', k, after[k]) && Listed(mode, w', k) {
      assert k in before && RecordSound(w, k, before[k]) && Listed(mode, w, k);
    }
  }

  /** An undisturbed pass that has still to visit some Pods. */
  ghost predicate Progress(w: World, w': World, todo: set<Uid>, now: int, ok: bool) {
    && w' == w.(store := w'.store, policy := w'.policy)
    && (forall uid :: uid in todo ==> RecordsOf(w', uid) == RecordsOf(w, uid))
    && (forall ns: Namespace :: ns.owner.uid in todo ==> SamePolicy(w, w', ns))
    && RemovedWell(w, w', now)
    && (ok ==> forall uid :: uid !in todo ==> Settled(w', uid))
  }

  ghost predicate ExactBut(w: World, w': World, todo: set<Uid>) {
    forall uid :: uid !in todo ==> GroupExact(w, w', uid)
  }

  /** Another Pod's turn leaves this one's records and paths alone. */
  lemma ExactElsewhere(w: World, x: World, y: World, uid: Uid, other: Uid)
    requires Sound(x) && Frame(x, y, uid) && other != uid && GroupExact(w, x, other)
    ensures GroupExact(w, y, other)
  {
    forall k | LiveRecord(y, other, k) && y.store[k].phase.Ready? ensures ExactRecord(w, y, k) {
      assert RecordSound(x, k, x.store[k]);
      assert LiveRecord(x, other, k) && ExactRecord(w, x, k);
      assert SamePolicy(x, y, x.store[k].ns);
    }
  }

  /** And its own turn sees it as the pass found it. */
  lemma ExactHere(w: World, x: World, y: World, todo: set<Uid>, uid: Uid, now: int, ok: bool)
    requires Sound(x) && Progress(w, x, todo, now, ok) && uid in todo && Frame(x, y, uid) && GroupExact(x, y, uid)
    ensures GroupExact(w, y, uid)
  {
    forall k | LiveRecord(y, uid, k) && y.store[k].phase.Ready? ensures ExactRecord(w, y, k) {
      assert ExactRecord(x, y, k);
      assert RecordSound(x, k, x.store[k]);
      FoundAsWas(w, x, todo, uid, now, ok, k);
    }
  }

  /** A record whose turn has not come is as the pass found it. */
  lemma FoundAsWas(w: World, x: World, todo: set<Uid>, uid: Uid, now: int, ok: bool, k: Key)
    requires Progress(w, x, todo, now, ok) && uid in todo && k in x.store && Owner(k).uid == uid
    requires RecordSound(x, k, x.store[k]) && Live(x, x.store[k])
    ensures k in w.store && w.store[k] == x.store[k] && (Misread(w, w.store[k]) <==> Misread(x, x.store[k]))
  {
    assert k in RecordsOf(x, uid);
    assert k in RecordsOf(w, uid) && RecordsOf(w, uid)[k] == RecordsOf(x, uid)[k];
    assert SamePolicy(w, x, x.store[k].ns);
  }

  lemma ExactStep(w: World, x: World, y: World, todo: set<Uid>, uid: Uid, now: int, ok: bool)
    requires Sound(x) && Progress(w, x, todo, now, ok) && uid in todo && Frame(x, y, uid) && GroupExact(x, y, uid)
    requires ExactBut(w, x, todo)
    ensures ExactBut(w, y, todo - {uid})
  {
    forall other | other !in todo - {uid} ensures GroupExact(w, y, other) {
      if other == uid {
        ExactHere(w, x, y, todo, uid, now, ok);
      } else {
        ExactElsewhere(w, x, y, uid, other);
      }
    }
  }

  ghost predicate AllBut(w: World, todo: set<Uid>) {
    forall uid :: uid !in todo ==> Reconcilable(w, uid)
  }

  lemma AllButStep(w: World, todo: set<Uid>, uid: Uid)
    requires uid in todo
    ensures AllBut(w, todo - {uid}) <==> AllBut(w, todo) && Reconcilable(w, uid)
  {
    if AllBut(w, todo) && Reconcilable(w, uid) {
      forall other | other !in todo - {uid} ensures Reconcilable(w, other) {
        if other != uid {
          assert other !in todo;
        }
      }
    }
    if AllBut(w, todo - {uid}) {
      assert uid !in todo - {uid};
      forall other | other !in todo ensures Reconcilable(w, other) {
        assert other !in todo - {uid};
      }
    }
  }

  lemma StartEvidence(mode: Mode, w: World, todo: set<Uid>, now: int)
    requires Sound(w) && todo == set k | k in w.store :: Owner(k).uid
    ensures Evidence(mode, w, Rest(w.store, todo)) && Progress(w, w, todo, now, true) && AllBut(w, todo)
    ensures ExactBut(w, w, todo)
  {
    forall k | k in Rest(w.store, todo) ensures RecordSound(w, k, w.store[k]) && Listed(mode, w, k) {
    }
    forall uid | uid !in todo ensures Settled(w, uid) && Reconcilable(w, uid) && GroupExact(w, w, uid) {
      assert forall k :: k in w.store ==> Owner(k).uid in todo;
    }
  }

  lemma RestIsAll(w: World, w': World, todo: set<Uid>, uid: Uid, now: int, ok: bool)
    requires Progress(w, w', todo, now, ok) && uid in todo
    ensures Rest(w.store, {uid}) == RecordsOf(w', uid)
  {
  }

  lemma FrameKeeps(w: World, w': World, uid: Uid, other: Uid)
    requires Sound(w) && Frame(w, w', uid) && other != uid
    ensures RecordsOf(w', other) == RecordsOf(w, other)
    ensures Settled(w, other) ==> Settled(w', other)
    ensures forall k :: k in w.store && Owner(k).uid == other && Backed(w, w.store[k]) && Live(w, w.store[k]) ==>
              Backed(w', w'.store[k])
  {
    FrameKeepsSettled(w, w', uid, other);
    forall k | k in w.store && Owner(k).uid == other && Backed(w, w.store[k]) && Live(w, w.store[k])
      ensures Backed(w', w'.store[k])
    {
      FrameKeepsBacked(w, w', uid, k);
    }
  }

  lemma FrameKeepsSettled(w: World, w': World, uid: Uid, other: Uid)
    requires Sound(w) && Frame(w, w', uid) && other != uid
    ensures Settled(w, other) ==> Settled(w', other)
  {
    if Settled(w, other) {
      forall k | LiveRecord(w', other, k)
        ensures LiveRecord(w, other, k) && (w'.store[k].phase.Ready? ==> Backed(w', w'.store[k]))
      {
        assert LiveRecord(w, other, k);
        FrameKeepsBacked(w, w', uid, k);
      }
    }
  }

  lemma FrameKeepsBacked(w: World, w': World, uid: Uid, k: Key)
    requires Sound(w) && Frame(w, w', uid) && k in w.store && Owner(k).uid != uid && Live(w, w.store[k])
    ensures k in w'.store && w'.store[k] == w.store[k] && (Backed(w, w.store[k]) ==> Backed(w', w'.store[k]))
  {
    assert RecordSound(w, k, w.store[k]);
    assert SamePolicy(w, w', w.store[k].ns);
  }

  lemma SupersededStays(w: World, x: World, y: World, uid: Uid, k: Key, now: int)
    requires k in w.store && Superseded(w, x, k, now)
    requires Sound(x) && Frame(x, y, uid) && Owner(k).uid != uid
    ensures Superseded(w, y, k, now)
  {
    var j :| j in x.store && Owner(j) == Owner(k) && x.store[j].phase.Ready? && Live(x, x.store[j])
      && Backed(x, x.store[j]);
    FrameKeeps(x, y, uid, Owner(k).uid);
    assert j in y.store && y.store[j] == x.store[j];
  }

  lemma RemovedStep(w: World, x: World, y: World, uid: Uid, k: Key, now: int)
    requires x == w.(store := x.store, policy := x.policy) && Sound(x)
    requires RecordsOf(x, uid) == RecordsOf(w, uid) && RemovedWell(w, x, now)
    requires Frame(x, y, uid) && RemovedWell(x, y, now)
    requires k in w.store && k !in y.store
    ensures Gone(w, Owner(k)) || Superseded(w, y, k, now)
  {
    if Owner(k).uid == uid {
      assert k in RecordsOf(w, uid);
      assert k in x.store && x.store[k] == w.store[k] by {
        assert k in RecordsOf(x, uid) && RecordsOf(x, uid)[k] == RecordsOf(w, uid)[k];
      }
    } else if !Gone(w, Owner(k)) {
      SupersededStays(w, x, y, uid, k, now);
    }
  }

  lemma ProgressStep(w: World, x: World, y: World, todo: set<Uid>, uid: Uid, now: int, ok: bool, done: bool)
    requires Progress(w, x, todo, now, ok) && uid in todo && Sound(x)
    requires GroupDone(x, y, uid, now, done)
    ensures Progress(w, y, todo - {uid}, now, ok && done)
  {
    forall ns: Namespace | ns.owner.uid in todo - {uid} ensures SamePolicy(w, y, ns) {
      assert SamePolicy(w, x, ns) && SamePolicy(x, y, ns);
    }
    forall other | other in todo - {uid} ensures RecordsOf(y, other) == RecordsOf(w, other) {
      FrameKeeps(x, y, uid, other);
    }
    forall other | ok && done && other !in todo - {uid} ensures Settled(y, other) {
      if other != uid {
        FrameKeeps(x, y, uid, other);
      }
    }
    forall k | k in w.store && k !in y.store ensures Gone(w, Owner(k)) || Superseded(w, y, k, now) {
      RemovedStep(w, x, y, uid, k, now);
    }
  }

  predicate Classified(w: World, group: Group, live: set<Key>)
    requires live <= group.Keys
  {
    forall k :: k in group ==> (k in live <==> Live(w, group[k]))
  }

  /** More than one live record is never fine, and only that is ambiguous. */
  lemma LiveMeans(w: World, group: Group, live: set<Key>)
    requires live <= group.Keys
    ensures Classified(w, group, live) && |live| > 1 ==> !AllFine(w, group)
    ensures Classified(w, group, live) && Ambiguous(w, group) ==> |live| > 1
  {
    if Classified(w, group, live) && |live| > 1 {
      var k :| k in live;
      assert |live - {k}| > 0;
      var j :| j in live - {k};
      assert !LiveFine(w, group, k);
    }
    if Classified(w, group, live) && Ambiguous(w, group) {
      var j, k :| j in group && k in group && j != k && Live(w, group[j]) && Live(w, group[k]);
      assert |live - {j}| > 0 && |live - {j} - {k}| >= 0;
    }
  }

  lemma OneLiveFine(w: World, group: Group, k: Key)
    requires k in group
    ensures Live(w, group[k]) && (forall j :: j in group && Live(w, group[j]) ==> j == k) ==>
              (AllFine(w, group) <==> group[k].phase.LockedDown? || Adoptable(w, group[k]))
  {
  }

  ghost predicate KeysDenied(w: World, group: Group, keys: set<Key>)
    requires keys <= group.Keys
  {
    forall k :: k in keys ==> IsDenied(w, group[k].ns)
  }

  lemma DenialKeeps(w: World, x: World, y: World, path: Path, uid: Uid, group: Group, keys: set<Key>)
    requires Frame(w, x, uid) && x.store == w.store && keys <= group.Keys && path in x.paths
    requires x.paths[path].owner.uid == uid
    requires y == x || (PolicyOnly(x, y, path) && DeniedAt(y, path))
    ensures Frame(w, y, uid) && y.store == w.store && (KeysDenied(x, group, keys) ==> KeysDenied(y, group, keys))
  {
    forall ns: Namespace | ns.owner.uid != uid ensures SamePolicy(w, y, ns) {
      assert SamePolicy(w, x, ns) && SamePolicy(x, y, ns);
    }
    if KeysDenied(x, group, keys) {
      forall k | k in keys ensures IsDenied(y, group[k].ns) {
        assert y == x || (group[k].ns == x.paths[path] && IsDenied(y, group[k].ns)) || SamePolicy(x, y, group[k].ns);
      }
    }
  }

  /** Every record of the group that was live has its namespace denied. */
  ghost predicate LiveDenied(w: World, w': World, group: Group) {
    forall k :: k in group && Live(w, group[k]) ==> IsDenied(w', group[k].ns)
  }

  class Reconciler {
    const node: Node
    const service: Service

    constructor (service: Service)
      ensures this.service == service && node == service.node
    {
      this.service := service;
      this.node := service.node;
    }

    /** liveAttachments: the records whose exact namespace is still at its path. */
    method LiveAttachments(group: Group) returns (live: set<Key>, ok: bool)
      requires node.Valid() && service.node == node
      modifies node
      ensures node.Valid() && old(node.history) <= node.history
      ensures Carries(node.mode, ReconcilePass, old(node.world), node.world)
      ensures live <= group.Keys
      ensures Quiet(old(node.schedule)) ==> Quiet(node.schedule) && node.world == old(node.world)
      ensures Quiet(old(node.schedule)) ==> forall k :: k in live ==> Live(node.world, group[k])
      ensures Quiet(old(node.schedule)) && ok ==> forall k :: k in group && Live(node.world, group[k]) ==> k in live
      ensures Calm(old(node.schedule)) ==> Calm(node.schedule) && ok
    {
      live, ok := {}, true;
      var todo := group.Keys;
      while todo != {}
        invariant todo <= group.Keys && live <= group.Keys - todo
        invariant node.Valid() && old(node.history) <= node.history
        invariant Carries(node.mode, ReconcilePass, old(node.world), node.world)
        invariant Calm(old(node.schedule)) ==> Calm(node.schedule) && ok
        invariant Quiet(old(node.schedule)) ==> Quiet(node.schedule) && node.world == old(node.world)
        invariant Quiet(old(node.schedule)) ==> forall k :: k in live ==> Live(node.world, group[k])
        invariant Quiet(old(node.schedule)) && ok ==>
                  forall k :: k in group && k !in todo && Live(node.world, group[k]) ==> k in live
      {
        var k :| k in todo;
        todo := todo - {k};
        var identity := service.Identity(ReconcilePass, group[k].pod.netns);
        if identity.Unknown? {
          ok := false;
        } else if identity == Is(group[k].ns) {
          live := live + {k};
        }
      }
    }

    method DenyOne(path: Path, cleanup: bool) returns (ok: bool)
      requires node.Valid()
      modifies node
      ensures node.Valid() && old(node.history) <= node.history
      ensures Carries(node.mode, ReconcilePass, old(node.world), node.world)
      ensures Quiet(old(node.schedule)) ==>
                Quiet(node.schedule) && (node.world == old(node.world) || PolicyOnly(old(node.world), node.world, path))
      ensures Quiet(old(node.schedule)) ==> node.world == old(node.world) || DeniedAt(node.world, path)
      ensures Quiet(old(node.schedule)) && ok ==> DeniedAt(node.world, path)
      ensures Calm(old(node.schedule)) ==> Calm(node.schedule) && ok == (path in old(node.world).paths)
    {
      LockedOnly(node.world, path);
      if cleanup {
        ok := node.Cleanup(ReconcilePass, path);
      } else {
        ok := node.Lockdown(ReconcilePass, path);
      }
    }

    /** Deny the namespaces of live records, by lockdown or by cleanup. */
    method DenyKeys(group: Group, keys: set<Key>, cleanup: bool, ghost uid: Uid) returns (ok: bool)
      requires node.Valid() && keys <= group.Keys
      modifies node
      ensures node.Valid() && old(node.history) <= node.history
      ensures Carries(node.mode, ReconcilePass, old(node.world), node.world)
      ensures Quiet(old(node.schedule)) && AllLive(old(node.world), group, keys, uid) ==>
                Quiet(node.schedule) && Frame(old(node.world), node.world, uid)
                  && node.world.store == old(node.world.store)
      ensures Quiet(old(node.schedule)) && ok && AllLive(old(node.world), group, keys, uid) ==>
                KeysDenied(node.world, group, keys)
      ensures Calm(old(node.schedule)) && AllLive(old(node.world), group, keys, uid) ==> Calm(node.schedule) && ok
    {
      ok := true;
      var todo := keys;
      ghost var quiet := Quiet(node.schedule) && AllLive(node.world, group, keys, uid);
      while todo != {}
        invariant todo <= keys
        invariant node.Valid() && old(node.history) <= node.history
        invariant Carries(node.mode, ReconcilePass, old(node.world), node.world)
        invariant quiet ==>
                  Quiet(node.schedule) && Frame(old(node.world), node.world, uid)
                    && node.world.store == old(node.world.store)
        invariant Calm(old(node.schedule)) ==> Calm(node.schedule) && (quiet ==> ok)
        invariant quiet && ok ==> KeysDenied(node.world, group, keys - todo)
      {
        var k :| k in todo;
        todo := todo - {k};
        ghost var before := node.world;
        var denied := DenyOne(group[k].pod.netns, cleanup);
        ok := ok && denied;
        if quiet {
          DenialKeeps(old(node.world), before, node.world, group[k].pod.netns, uid, group, keys - todo - {k});
        }
      }
    }

    method DeleteKeys(keys: set<Key>) returns (ok: bool, ghost gone: set<Key>)
      requires node.Valid() && forall k :: k in keys ==> Gone(node.world, Owner(k))
      modifies node
      ensures node.Valid() && old(node.history) <= node.history
      ensures Carries(node.mode, ReconcilePass, old(node.world), node.world)
      ensures gone <= keys && (ok ==> gone == keys)
      ensures Quiet(old(node.schedule)) ==> Quiet(node.schedule) && node.world == Without(old(node.world), gone)
      ensures Calm(old(node.schedule)) ==> Calm(node.schedule) && ok
    {
      ok, gone := true, {};
      var todo := keys;
      ghost var start := node.world;
      node.NowSound();
      while todo != {}
        invariant todo <= keys && gone <= keys - todo && (ok ==> gone == keys - todo)
        invariant node.Valid() && old(node.history) <= node.history
        invariant Carries(node.mode, ReconcilePass, start, node.world)
        invariant Calm(old(node.schedule)) ==> Calm(node.schedule) && ok
        invariant Quiet(old(node.schedule)) ==> Quiet(node.schedule) && node.world == Without(start, gone)
      {
        var k :| k in todo;
        todo := todo - {k};
        GoneCarried(node.mode, ReconcilePass, start, node.world, Owner(k));
        var deleted := node.Delete(ReconcilePass, k);
        ok := ok && deleted;
        if deleted {
          gone := gone + {k};
        }
      }
    }

    /** Deny every live namespace of the group and publish the withdrawal. */
    method CleanGroup(group: Group, ghost uid: Uid) returns (ok: bool)
      requires node.Valid() && service.node == node && Evidence(node.mode, node.world, group)
      requires forall k :: k in group ==> Owner(k).uid == uid
      modifies node
      ensures node.Valid() && old(node.history) <= node.history
      ensures Carries(node.mode, ReconcilePass, old(node.world), node.world)
      ensures Quiet(old(node.schedule)) ==>
                Quiet(node.schedule) && Frame(old(node.world), node.world, uid)
                  && node.world.store == old(node.world.store)
      ensures Quiet(old(node.schedule)) && ok ==> LiveDenied(old(node.world), node.world, group)
      ensures Calm(old(node.schedule)) ==> Calm(node.schedule) && ok
    {
      ghost var start := node.world;
      var live, classified := LiveAttachments(group);
      if !classified {
        return false;
      }
      OwnersOf(node.mode, start, group, live, uid);
      var cleaned := DenyKeys(group, live, true, uid);
      if !cleaned {
        return false;
      }
      ok := service.PublishWithdrawal(ReconcilePass);
    }

    /** withdrawAttachmentGroup: deny, publish, and only then forget the records. */
    method WithdrawGroup(group: Group, ghost uid: Uid) returns (ok: bool, ghost gone: set<Key>)
      requires node.Valid() && service.node == node && Evidence(node.mode, node.world, group)
      requires forall k :: k in group ==> Gone(node.world, Owner(k)) && Owner(k).uid == uid
      modifies node
      ensures node.Valid() && old(node.history) <= node.history
      ensures Carries(node.mode, ReconcilePass, old(node.world), node.world)
      ensures gone <= group.Keys && (ok ==> gone == group.Keys)
      ensures Quiet(old(node.schedule)) ==>
                Quiet(node.schedule) && Frame(old(node.world), node.world, uid)
                  && node.world.store == old(node.world.store) - gone
      ensures Quiet(old(node.schedule)) && (ok || gone != {}) ==> LiveDenied(old(node.world), node.world, group)
      ensures Calm(old(node.schedule)) ==> Calm(node.schedule) && ok
    {
      ghost var start := node.world;
      node.NowSound();
      var cleaned := CleanGroup(group, uid);
      if !cleaned {
        return false, {};
      }
      ghost var denied := node.world;
      forall k | k in group.Keys ensures Gone(denied, Owner(k)) {
        GoneCarried(node.mode, ReconcilePass, start, denied, Owner(k));
      }
      ok, gone := DeleteKeys(group.Keys);
      WithoutFrame(start, denied, gone, uid);
    }

    /** A newer generation is programmed and verified before it is recorded. */
    method Advance(current: Attachment, b: Binding, now: int) returns (ok: bool)
      requires node.Valid() && service.node == node && !node.mode.held
      requires RecordSound(node.world, current.pod.key, current)
      modifies node
      ensures node.Valid() && old(node.history) <= node.history
      ensures Carries(node.mode, ReconcilePass, old(node.world), node.world)
      ensures Quiet(old(node.schedule)) && Holds(old(node.world), current) && Names(b, current) ==>
                Quiet(node.schedule) && Adopted(old(node.world), node.world, current)
                  && (ok ==> Intact(node.world, node.world.store[current.pod.key]))
      ensures Calm(old(node.schedule)) && Holds(old(node.world), current)
              && CurrentBinding(old(node.world), Owner(current.pod.key)) == Some(b) ==>
                Calm(node.schedule) && ok == Authorized(old(node.world), Owner(current.pod.key), b)
    {
      ghost var start := node.world;
      node.NowSound();
      ghost var c, trail;
      ok, c, trail := service.PrepareNow(ReconcilePass, current.pod, b);
      if !ok {
        AdoptedUnsaved(start, node.world, current);
        return;
      }
      RecordCarried(node.mode, start, node.world, current);
      ok := RecordAdvance(current, b, now, start, c);
    }

    /** The verified generation is recorded; if it cannot be, the path is denied again. */
    method RecordAdvance(current: Attachment, b: Binding, now: int, ghost start: World, ghost c: Config)
      returns (ok: bool)
      requires node.Valid() && RecordSound(node.world, current.pod.key, current)
      modifies node
      ensures node.Valid() && old(node.history) <= node.history
      ensures Carries(node.mode, ReconcilePass, old(node.world), node.world)
      ensures Quiet(old(node.schedule)) && Holds(start, current) && Names(b, current)
              && PolicyOnly(start, old(node.world), current.pod.netns)
              && Bound(old(node.world), Owner(current.pod.key), b, c)
              && Exactly(old(node.world), current.pod.netns, c) ==>
                && Quiet(node.schedule) && Adopted(start, node.world, current)
                && (ok ==> Intact(node.world, node.world.store[current.pod.key]))
      ensures Calm(old(node.schedule)) ==> Calm(node.schedule) && ok
    {
      var next := current.(generation := b.generation, updatedAt := now);
      ghost var verified := node.world;
      ok := node.Save(ReconcilePass, next);
      if ok {
        AdoptedSaved(start, verified, node.world, current, next, b, c);
      } else {
        var _ := node.Lockdown(ReconcilePass, current.pod.netns);
        LockedOnly(verified, current.pod.netns);
        PolicyOnlyTransitive(start, verified, node.world, current.pod.netns);
        AdoptedUnsaved(start, node.world, current);
      }
    }

    /** The recorded generation is still current: check it. */
    method Confirm(current: Attachment, b: Binding) returns (ok: bool)
      requires node.Valid() && service.node == node && !node.mode.held && b.generation == current.generation
      modifies node
      ensures node.Valid() && old(node.history) <= node.history
      ensures Carries(node.mode, ReconcilePass, old(node.world), node.world)
      ensures Quiet(old(node.schedule)) && Holds(old(node.world), current) && Names(b, current) ==>
                Quiet(node.schedule) && Adopted(old(node.world), node.world, current)
                  && (ok ==> Backed(node.world, node.world.store[current.pod.key]))
      ensures Calm(old(node.schedule)) && Holds(old(node.world), current) && Names(b, current) ==>
                Calm(node.schedule) && ok == Authorized(old(node.world), Owner(current.pod.key), b)
                  && (!ok ==> IsDenied(node.world, current.ns))
      ensures Calm(old(node.schedule)) && Holds(old(node.world), current) && Names(b, current) && ok ==>
                (Intact(node.world, node.world.store[current.pod.key]) <==> !Misread(old(node.world), current))
    {
      ghost var start := node.world;
      ghost var c, at;
      ok, c, at := service.CheckNow(ReconcilePass, current.pod, b);
      AdoptedUnsaved(start, node.world, current);
      if current.pod.netns in start.paths {
        CheckedExactly(start, current.pod.netns, c);
      }
    }

    /** Program and verify the one live Ready record against the Pod's binding. */
    method Adopt(current: Attachment, now: int) returns (ok: bool)
      requires node.Valid() && service.node == node && !node.mode.held
      requires RecordSound(node.world, current.pod.key, current)
      modifies node
      ensures node.Valid() && old(node.history) <= node.history
      ensures Carries(node.mode, ReconcilePass, old(node.world), node.world)
      ensures Quiet(old(node.schedule)) && Holds(old(node.world), current) ==>
                Quiet(node.schedule) && Adopted(old(node.world), node.world, current)
                  && (ok ==> Backed(node.world, node.world.store[current.pod.key]))
      ensures Calm(old(node.schedule)) && Holds(old(node.world), current) ==>
                Calm(node.schedule) && ok == Adoptable(old(node.world), current)
      ensures Calm(old(node.schedule)) && Holds(old(node.world), current) && ok ==>
                (Intact(node.world, node.world.store[current.pod.key]) <==> !Misread(old(node.world), current))
      ensures Calm(old(node.schedule)) && Holds(old(node.world), current) && !ok && !Newer(old(node.world), current) ==>
                IsDenied(node.world, current.ns)
    {
      ghost var start := node.world;
      node.NowSound();
      var binding := service.BindingOf(ReconcilePass, Owner(current.pod.key));
      if binding.None? || binding.value.reference.uid != current.bindingUid
         || binding.value.reference.gatewayUid != current.gatewayUid {
        var _ := node.Lockdown(ReconcilePass, current.pod.netns);
        LockedOnly(start, current.pod.netns);
        AdoptedUnsaved(start, node.world, current);
        return false;
      }
      var b := binding.value.reference;
      if b.generation == current.generation {
        ok := Confirm(current, b);
      } else {
        RecordCarried(node.mode, start, node.world, current);
        ok := Advance(current, b, now);
      }
    }

    method RemoveSibling(k: Key, kept: Key, ghost start: World, ghost except: set<Key>) returns (ok: bool)
      requires node.Valid() && k in except && kept !in except && Owner(k) == Owner(kept)
      requires Sound(start) && ListedKept(node.mode, start, node.world, except) && Listed(node.mode, start, kept)
      modifies node
      ensures node.Valid() && old(node.history) <= node.history && ListedKept(node.mode, start, node.world, except)
      ensures Quiet(old(node.schedule)) ==>
                Quiet(node.schedule) && node.world == if ok then Removed(old(node.world), k) else old(node.world)
      ensures Calm(old(node.schedule)) ==> Calm(node.schedule) && ok
    {
      ghost var before := node.world;
      ok := node.DeleteSibling(k, kept);
      ListedKeptTransitive(node.mode, start, before, node.world, except, k);
    }

    /** Remove the other records of the Pod, but no young attempt. */
    method RemoveSiblings(group: Group, kept: Key, now: int) returns (ok: bool, ghost gone: set<Key>)
      requires node.Valid() && Listed(node.mode, node.world, kept)
      requires forall k :: k in group ==> Owner(k) == Owner(kept)
      modifies node
      ensures node.Valid() && old(node.history) <= node.history && Follows(node.mode, old(node.world), node.world)
      ensures forall j :: j !in group && Listed(node.mode, old(node.world), j) ==> Listed(node.mode, node.world, j)
      ensures gone <= Stale(group, kept, now) && (ok ==> gone == Stale(group, kept, now))
      ensures Quiet(old(node.schedule)) ==> Quiet(node.schedule) && node.world == Without(old(node.world), gone)
      ensures Calm(old(node.schedule)) ==> Calm(node.schedule) && ok
    {
      ok, gone := true, {};
      var todo := Stale(group, kept, now);
      ghost var start := node.world;
      node.NowSound();
      FollowsReflexive(node.mode, start);
      while todo != {}
        invariant todo <= Stale(group, kept, now)
        invariant gone <= Stale(group, kept, now) - todo && (ok ==> gone == Stale(group, kept, now) - todo)
        invariant node.Valid() && old(node.history) <= node.history
        invariant ListedKept(node.mode, start, node.world, group.Keys - {kept})
        invariant Quiet(old(node.schedule)) ==> Quiet(node.schedule) && node.world == Without(start, gone)
        invariant Calm(old(node.schedule)) ==> Calm(node.schedule) && ok
      {
        var k :| k in todo;
        todo := todo - {k};
        var deleted := RemoveSibling(k, kept, start, group.Keys - {kept});
        ok := ok && deleted;
        WithoutStep(start, gone, k);
        if deleted {
          gone := gone + {k};
        }
      }
    }

    /** The group of one Pod that still exists, with its one live record. */
    method ReconcileCurrent(group: Group, k: Key, now: int) returns (ok: bool)
      requires node.Valid() && service.node == node && !node.mode.held
      requires k in group && Evidence(node.mode, node.world, group)
      requires forall j :: j in group ==> Owner(j) == Owner(k)
      modifies node
      ensures node.Valid() && old(node.history) <= node.history && Follows(node.mode, old(node.world), node.world)
      ensures forall j :: j !in group && Listed(node.mode, old(node.world), j) ==> Listed(node.mode, node.world, j)
      ensures Quiet(old(node.schedule)) && OnlyLive(old(node.world), group, k) ==>
                Quiet(node.schedule) && GroupDone(old(node.world), node.world, Owner(k).uid, now, ok)
      ensures Calm(old(node.schedule)) && OnlyLive(old(node.world), group, k) ==>
                Calm(node.schedule) && ok == (group[k].phase.LockedDown? || Adoptable(old(node.world), group[k]))
      ensures Calm(old(node.schedule)) && OnlyLive(old(node.world), group, k) && group[k].phase.LockedDown?
              && !Young(group[k], now) ==>
                IsDenied(node.world, group[k].ns)
      ensures Calm(old(node.schedule)) && OnlyLive(old(node.world), group, k) && ok ==>
                GroupExact(old(node.world), node.world, Owner(k).uid)
    {
      ghost var start := node.world;
      node.NowSound();
      assert RecordSound(start, k, group[k]);
      var current := group[k];
      if current.phase == LockedDown {
        ok := true;
        if !Young(current, now) {
          ok := node.Lockdown(ReconcilePass, current.pod.netns);
        }
        ListedCarried(node.mode, start, node.world);
        LockedDownDone(start, node.world, group, k, now, ok);
        return;
      }
      ok := Adopt(current, now);
      ListedCarried(node.mode, start, node.world);
      ghost var adopted := node.world;
      if !ok {
        SiblingsDone(start, adopted, {}, group, k, now, false);
        return;
      }
      node.NowSound();
      ghost var gone;
      ok, gone := RemoveSiblings(group, k, now);
      FollowsTransitive(node.mode, start, adopted, node.world);
      SiblingsDone(start, adopted, gone, group, k, now, true);
      SiblingsExact(start, adopted, gone, group, k, now);
    }

    /** reconcileAttachmentGroup: the records of one Pod UID. */
    method ReconcileGroup(group: Group, uid: Uid, now: int) returns (ok: bool)
      requires node.Valid() && service.node == node && !node.mode.held
      requires group != map[] && Evidence(node.mode, node.world, group)
      requires forall k :: k in group ==> Owner(k).uid == uid
      modifies node
      ensures node.Valid() && old(node.history) <= node.history && Follows(node.mode, old(node.world), node.world)
      ensures forall j :: j !in group && Listed(node.mode, old(node.world), j) ==> Listed(node.mode, node.world, j)
      ensures Quiet(old(node.schedule)) && group == RecordsOf(old(node.world), uid) ==>
                Quiet(node.schedule) && GroupDone(old(node.world), node.world, uid, now, ok)
      ensures Calm(old(node.schedule)) && group == RecordsOf(old(node.world), uid) ==>
                Calm(node.schedule) && ok == Reconcilable(old(node.world), uid)
      ensures Calm(old(node.schedule)) && group == RecordsOf(old(node.world), uid) && ok ==>
                GroupExact(old(node.world), node.world, uid)
    {
      var first :| first in group;
      if k :| k in group && Owner(k) != Owner(first) {
        QuarantineGroup(group, uid, now);
        return false;
      }
      ok := ReconcileAgreed(group, first, now);
    }

    /** Deny what was found live; the records stay. */
    method DenyLive(group: Group, live: set<Key>, ghost uid: Uid, ghost now: int)
      requires node.Valid() && live <= group.Keys && Evidence(node.mode, node.world, group)
      requires forall k :: k in group ==> Owner(k).uid == uid
      modifies node
      ensures node.Valid() && old(node.history) <= node.history && Follows(node.mode, old(node.world), node.world)
      ensures forall j :: Listed(node.mode, old(node.world), j) ==> Listed(node.mode, node.world, j)
      ensures Quiet(old(node.schedule)) && (forall k :: k in live ==> Live(old(node.world), group[k])) ==>
                Quiet(node.schedule) && GroupDone(old(node.world), node.world, uid, now, false)
      ensures Calm(old(node.schedule)) && (forall k :: k in live ==> Live(old(node.world), group[k])) ==>
                Calm(node.schedule) && KeysDenied(node.world, group, live)
    {
      ghost var start := node.world;
      node.NowSound();
      OwnersOf(node.mode, start, group, live, uid);
      var _ := DenyKeys(group, live, false, uid);
      ListedCarried(node.mode, start, node.world);
      DeniedDone(start, node.world, uid, now);
    }

    /** quarantineAttachmentGroup: always an error. */
    method QuarantineGroup(group: Group, ghost uid: Uid, ghost now: int)
      requires node.Valid() && service.node == node && Evidence(node.mode, node.world, group)
      requires forall k :: k in group ==> Owner(k).uid == uid
      modifies node
      ensures node.Valid() && old(node.history) <= node.history && Follows(node.mode, old(node.world), node.world)
      ensures forall j :: Listed(node.mode, old(node.world), j) ==> Listed(node.mode, node.world, j)
      ensures Quiet(old(node.schedule)) ==>
                Quiet(node.schedule) && GroupDone(old(node.world), node.world, uid, now, false)
      ensures Quiet(old(node.schedule)) ==> node.world.store == old(node.world.store)
      ensures Calm(old(node.schedule)) ==> Calm(node.schedule) && LiveDenied(old(node.world), node.world, group)
    {
      ghost var start := node.world;
      node.NowSound();
      var live, _ := LiveAttachments(group);
      OwnersOf(node.mode, start, group, live, uid);
      var _ := DenyKeys(group, live, false, uid);
      ListedCarried(node.mode, start, node.world);
      DeniedDone(start, node.world, uid, now);
    }

    /** The exact Pod is gone. */
    method ReconcileGone(group: Group, ghost uid: Uid, ghost now: int) returns (ok: bool)
      requires node.Valid() && service.node == node && Evidence(node.mode, node.world, group)
      requires forall k :: k in group ==> Gone(node.world, Owner(k)) && Owner(k).uid == uid
      modifies node
      ensures node.Valid() && old(node.history) <= node.history && Follows(node.mode, old(node.world), node.world)
      ensures forall j :: Listed(node.mode, old(node.world), j) ==> Listed(node.mode, node.world, j)
      ensures Quiet(old(node.schedule)) && group == RecordsOf(old(node.world), uid) ==>
                Quiet(node.schedule) && GroupDone(old(node.world), node.world, uid, now, ok)
                  && (ok ==> GroupExact(old(node.world), node.world, uid))
      ensures Calm(old(node.schedule)) ==> Calm(node.schedule) && ok
    {
      ghost var start := node.world;
      node.NowSound();
      ghost var gone;
      ok, gone := WithdrawGroup(group, uid);
      ListedCarried(node.mode, start, node.world);
      WithdrawnDone(start, node.world, group, uid, gone, now, ok);
    }

    /** The Pod that the records agree on is known to be gone, or to exist. */
    method ReconcileKnown(group: Group, uid: Uid, gone: bool, now: int) returns (ok: bool)
      requires node.Valid() && service.node == node && !node.mode.held && Evidence(node.mode, node.world, group)
      requires forall j, k :: j in group && k in group ==> Owner(j) == Owner(k) && Owner(k).uid == uid
      requires gone ==> forall k :: k in group ==> Gone(node.world, Owner(k))
      modifies node
      ensures node.Valid() && old(node.history) <= node.history && Follows(node.mode, old(node.world), node.world)
      ensures forall j :: j !in group && Listed(node.mode, old(node.world), j) ==> Listed(node.mode, node.world, j)
      ensures Quiet(old(node.schedule)) && group == RecordsOf(old(node.world), uid) ==>
                Quiet(node.schedule) && GroupDone(old(node.world), node.world, uid, now, ok)
      ensures Calm(old(node.schedule)) && group == RecordsOf(old(node.world), uid) ==>
                && Calm(node.schedule) && ok == (gone || AllFine(old(node.world), group))
                && (ok ==> GroupExact(old(node.world), node.world, uid))
    {
      if gone {
        ok := ReconcileGone(group, uid, now);
      } else {
        ok := ReconcilePresent(group, uid, now);
      }
    }

    /** Whether the Pod can be looked up, and then whether it is gone. */
    method Fate(ref: PodRef) returns (known: bool, gone: bool)
      requires node.Valid() && service.node == node && ref in node.world.issued
      modifies node
      ensures node.Valid() && old(node.history) <= node.history
      ensures Carries(node.mode, ReconcilePass, old(node.world), node.world)
      ensures known && gone ==> Gone(node.world, ref)
      ensures Quiet(old(node.schedule)) ==> Quiet(node.schedule) && node.world == old(node.world)
      ensures Calm(old(node.schedule)) ==>
                && Calm(node.schedule) && known == !LookUp(old(node.world), ref).Failed?
                && (known ==> gone == Gone(old(node.world), ref))
    {
      ghost var start := node.world;
      node.NowSound();
      var pod := service.Pod(ReconcilePass, ref);
      FromCarries(node.mode, ReconcilePass, start, node.world);
      known := !pod.Failed?;
      gone := !pod.Found? || pod.info.terminating;
    }

    /** The records agree on their Pod: it is gone, unknown or present. */
    method ReconcileAgreed(group: Group, first: Key, now: int) returns (ok: bool)
      requires node.Valid() && service.node == node && !node.mode.held
      requires first in group && Evidence(node.mode, node.world, group)
      requires forall k :: k in group ==> Owner(k) == Owner(first)
      modifies node
      ensures node.Valid() && old(node.history) <= node.history && Follows(node.mode, old(node.world), node.world)
      ensures forall j :: j !in group && Listed(node.mode, old(node.world), j) ==> Listed(node.mode, node.world, j)
      ensures Quiet(old(node.schedule)) && group == RecordsOf(old(node.world), Owner(first).uid) ==>
                Quiet(node.schedule) && GroupDone(old(node.world), node.world, Owner(first).uid, now, ok)
      ensures Calm(old(node.schedule)) && group == RecordsOf(old(node.world), Owner(first).uid) ==>
                && Calm(node.schedule) && ok == Reconcilable(old(node.world), Owner(first).uid)
                && (ok ==> GroupExact(old(node.world), node.world, Owner(first).uid))
    {
      ghost var start := node.world;
      node.NowSound();
      var uid := Owner(first).uid;
      if group == RecordsOf(start, uid) {
        AgreedReconcilable(start, group, first);
      }
      assert RecordSound(start, first, group[first]);
      var known, gone := Fate(Owner(first));
      ListedCarried(node.mode, start, node.world);
      if !known {
        return false;
      }
      EvidenceCarried(node.mode, start, node.world, group);
      ghost var before := node.world;
      ok := ReconcileKnown(group, uid, gone, now);
      FollowsTransitive(node.mode, start, before, node.world);
    }

    /** The exact Pod exists: find its one live sandbox. */
    method ReconcilePresent(group: Group, uid: Uid, now: int) returns (ok: bool)
      requires node.Valid() && service.node == node && !node.mode.held
      requires Evidence(node.mode, node.world, group)
      requires forall j, k :: j in group && k in group ==> Owner(j) == Owner(k) && Owner(k).uid == uid
      modifies node
      ensures node.Valid() && old(node.history) <= node.history && Follows(node.mode, old(node.world), node.world)
      ensures forall j :: j !in group && Listed(node.mode, old(node.world), j) ==> Listed(node.mode, node.world, j)
      ensures Quiet(old(node.schedule)) && group == RecordsOf(old(node.world), uid) ==>
                Quiet(node.schedule) && GroupDone(old(node.world), node.world, uid, now, ok)
      ensures Calm(old(node.schedule)) && group == RecordsOf(old(node.world), uid) ==>
                Calm(node.schedule) && ok == AllFine(old(node.world), group)
      ensures Calm(old(node.schedule)) && Ambiguous(old(node.world), group) ==>
                LiveDenied(old(node.world), node.world, group)
      ensures Calm(old(node.schedule)) && group == RecordsOf(old(node.world), uid) && ok ==>
                GroupExact(old(node.world), node.world, uid)
    {
      ghost var start := node.world;
      node.NowSound();
      var live, classified := LiveAttachments(group);
      LiveMeans(start, group, live);
      ListedCarried(node.mode, start, node.world);
      EvidenceCarried(node.mode, start, node.world, group);
      ghost var before := node.world;
      if !classified || |live| > 1 {
        DenyLive(group, live, uid, now);
        ok := false;
      } else {
        ok := ReconcileOnly(group, live, uid, now);
      }
      FollowsTransitive(node.mode, start, before, node.world);
    }

    /** At most one record of the Pod is live. */
    method ReconcileOnly(group: Group, live: set<Key>, uid: Uid, now: int) returns (ok: bool)
      requires node.Valid() && service.node == node && !node.mode.held
      requires Evidence(node.mode, node.world, group) && live <= group.Keys && |live| <= 1
      requires forall j, k :: j in group && k in group ==> Owner(j) == Owner(k) && Owner(k).uid == uid
      modifies node
      ensures node.Valid() && old(node.history) <= node.history && Follows(node.mode, old(node.world), node.world)
      ensures forall j :: j !in group && Listed(node.mode, old(node.world), j) ==> Listed(node.mode, node.world, j)
      ensures Quiet(old(node.schedule)) && Classified(old(node.world), group, live)
              && group == RecordsOf(old(node.world), uid) ==>
                Quiet(node.schedule) && GroupDone(old(node.world), node.world, uid, now, ok)
      ensures Calm(old(node.schedule)) && Classified(old(node.world), group, live)
              && group == RecordsOf(old(node.world), uid) ==>
                Calm(node.schedule) && ok == AllFine(old(node.world), group)
      ensures Calm(old(node.schedule)) && Classified(old(node.world), group, live)
              && group == RecordsOf(old(node.world), uid) && ok ==>
                GroupExact(old(node.world), node.world, uid)
    {
      ghost var start := node.world;
      node.NowSound();
      FollowsReflexive(node.mode, start);
      if live == {} {
        if forall k :: k in group ==> !Live(start, group[k]) {
          NoneLiveDone(start, group, uid, now);
        }
        return true;
      }
      var k :| k in live;
      assert |live - {k}| == 0;
      OneLiveFine(start, group, k);
      ok := ReconcileCurrent(group, k, now);
    }

    /** LockdownAll: deny every recorded namespace that is still in place. */
    method LockdownAll() returns (ok: bool)
      requires node.Valid() && service.node == node
      modifies node
      ensures node.Valid() && old(node.history) <= node.history
      ensures Carries(node.mode, ReconcilePass, old(node.world), node.world)
      ensures Quiet(old(node.schedule)) ==> Quiet(node.schedule) && DeniedOnly(old(node.world), node.world)
      ensures Quiet(old(node.schedule)) && ok ==> AllDenied(node.world, node.world.store.Keys)
      ensures Calm(old(node.schedule)) ==> Calm(node.schedule) && ok
    {
      var listed := node.Wait(ReconcilePass);
      if !listed {
        return false;
      }
      ok := true;
      var records := node.world.store;
      var todo := records.Keys;
      while todo != {}
        invariant todo <= records.Keys
        invariant node.Valid() && old(node.history) <= node.history
        invariant Carries(node.mode, ReconcilePass, old(node.world), node.world)
        invariant Calm(old(node.schedule)) ==> Calm(node.schedule) && ok
        invariant Quiet(old(node.schedule)) ==>
                  Quiet(node.schedule) && DeniedOnly(old(node.world), node.world) && node.world.store == records
        invariant Quiet(old(node.schedule)) && ok ==> AllDenied(node.world, records.Keys - todo)
      {
        var k :| k in todo;
        todo := todo - {k};
        ghost var before := node.world;
        var denied := service.DenyExact(ReconcilePass, records[k], true);
        ok := ok && denied;
        if Quiet(old(node.schedule)) {
          DeniedStep(old(node.world), before, node.world, records[k].pod.netns, records.Keys - todo - {k});
        }
      }
      var reported := node.Wait(ReconcilePass);
      ok := ok && reported;
    }

    /** One Pod's turn in a pass. */
    method Visit(records: Group, todo: set<Uid>, uid: Uid, now: int, ghost start: World, ghost well: bool)
      returns (ok: bool)
      requires node.Valid() && service.node == node && !node.mode.held
      requires uid in todo && Rest(records, {uid}) != map[] && Evidence(node.mode, node.world, Rest(records, todo))
      modifies node
      ensures node.Valid() && old(node.history) <= node.history
      ensures Evidence(node.mode, node.world, Rest(records, todo - {uid}))
      ensures Quiet(old(node.schedule)) && start.store == records
              && Progress(start, old(node.world), todo, now, well) ==>
                Quiet(node.schedule) && Progress(start, node.world, todo - {uid}, now, well && ok)
      ensures Calm(old(node.schedule)) && start.store == records
              && Progress(start, old(node.world), todo, now, well) ==>
                Calm(node.schedule) && ok == Reconcilable(start, uid)
      ensures Calm(old(node.schedule)) && start.store == records && Progress(start, old(node.world), todo, now, well)
              && ok && ExactBut(start, old(node.world), todo) ==>
                ExactBut(start, node.world, todo - {uid})
    {
      ghost var before := node.world;
      var group := Rest(records, {uid});
      node.NowSound();
      assert Evidence(node.mode, before, group) by {
        assert forall k :: k in group ==> k in Rest(records, todo) && group[k] == Rest(records, todo)[k];
      }
      ok := ReconcileGroup(group, uid, now);
      EvidenceOfRest(node.mode, before, node.world, records, todo, uid);
      if Quiet(old(node.schedule)) && start.store == records && Progress(start, before, todo, now, well) {
        RestIsAll(start, before, todo, uid, now, well);
        SameReconcilable(start, before, uid);
        ProgressStep(start, before, node.world, todo, uid, now, well, ok);
        if Calm(old(node.schedule)) && ok && ExactBut(start, before, todo) {
          ExactStep(start, before, node.world, todo, uid, now, well);
        }
      }
    }

    /** The loop of ReconcileAll over the Pods of a listing. */
    method ReconcileRecords(now: int) returns (ok: bool)
      requires node.Valid() && service.node == node && !node.mode.held
      modifies node
      ensures node.Valid() && old(node.history) <= node.history
      ensures Quiet(old(node.schedule)) ==>
                RemovedWell(old(node.world), node.world, now) && (ok ==> forall uid :: Settled(node.world, uid))
      ensures Calm(old(node.schedule)) ==> ok == forall uid :: Reconcilable(old(node.world), uid)
      ensures Calm(old(node.schedule)) && ok ==> forall uid :: GroupExact(old(node.world), node.world, uid)
    {
      ghost var start := node.world;
      node.NowSound();
      var records := node.world.store;
      var todo := set k | k in records :: Owner(k).uid;
      ok := true;
      StartEvidence(node.mode, start, todo, now);
      while todo != {}
        invariant node.Valid() && old(node.history) <= node.history
        invariant Evidence(node.mode, node.world, Rest(records, todo))
        invariant todo <= set k | k in records :: Owner(k).uid
        invariant Quiet(old(node.schedule)) ==> Quiet(node.schedule) && Progress(start, node.world, todo, now, ok)
        invariant Calm(old(node.schedule)) && ok ==> ExactBut(start, node.world, todo)
        invariant Calm(old(node.schedule)) ==> Calm(node.schedule) && ok == AllBut(start, todo)
      {
        var uid :| uid in todo;
        assert Rest(records, {uid}) != map[] by {
          var k :| k in records && Owner(k).uid == uid;
          assert k in Rest(records, {uid});
        }
        var done := Visit(records, todo, uid, now, start, ok);
        AllButStep(start, todo, uid);
        todo := todo - {uid};
        ok := ok && done;
      }
    }

    /** ReconcileAll, from a fresh listing of the records. */
    method ReconcileAll(now: int) returns (ok: bool)
      requires node.Valid() && service.node == node
      modifies node
      ensures node.Valid() && old(node.history) <= node.history
      ensures Quiet(old(node.schedule)) && node.mode.held ==>
                DeniedOnly(old(node.world), node.world) && (ok ==> AllDenied(node.world, node.world.store.Keys))
      ensures Quiet(old(node.schedule)) && !node.mode.held ==>
                RemovedWell(old(node.world), node.world, now) && (ok ==> forall uid :: Settled(node.world, uid))
      ensures Calm(old(node.schedule)) && !node.mode.held ==> ok == forall uid :: Reconcilable(old(node.world), uid)
      ensures Calm(old(node.schedule)) && node.mode.held ==> ok
      ensures Calm(old(node.schedule)) && !node.mode.held && ok ==>
                forall uid :: GroupExact(old(node.world), node.world, uid)
    {
      if node.mode.held {
        ok := LockdownAll();
        return;
      }
      var listed := node.Wait(ReconcilePass);
      if !listed {
        return false;
      }
      ok := ReconcileRecords(now);
    }
  }
}
