/** The qBittorrent adapter of internal/qbittorrentadapter/handler.go: a map of
    lease states, a state file that outlives the process, and an application that
    is configured and then observed. A log records what the application did. */
module AdapterHandler {
  import opened Common

  datatype Protocol = TCP | UDP | Unsupported

  /** What sameApplicationIdentity compares. */
  datatype AppIdentity = AppIdentity(
    leaseUid: Uid, generation: int, podUid: Uid, publicAddress: nat, publicPort: nat, targetPort: nat,
    applicationAddress: nat, backendPort: nat, protocols: seq<Protocol>)

  datatype Record = Record(id: AppIdentity, namespace: Uid, expiresAt: int)

  datatype AdapterState = AdapterState(
    record: Record, appliedAt: Option<int>, observedAt: Option<int>, adapterPodUid: Uid)

  /** What happened to the application: a record's target port applied, its backend port
      restored, or the target port observed. */
  datatype AppEvent = Applied(id: AppIdentity) | Restored(id: AppIdentity) | Observed(podUid: Uid, id: AppIdentity)

  /** The running Pod, its memory, the state file and the application's history. */
  datatype World = World(podUid: Uid, states: map<Uid, AdapterState>, file: map<Uid, AdapterState>, log: seq<AppEvent>)

  /** A state-file write that reports failure may still have replaced the file. */
  datatype FileWrite = Saved | SaveFailed(replaced: bool)

  /** A call to the application that reports failure may still have taken effect. */
  datatype Apply = Done | NotDone(took: bool)

  datatype DeliverInputs = DeliverInputs(
    now: int, first: FileWrite, apply: Apply, second: FileWrite, observeOk: bool, third: FileWrite)

  datatype WithdrawInputs = WithdrawInputs(apply: Apply, observeOk: bool, save: FileWrite)

  datatype WithdrawIntent = WithdrawIntent(
    leaseUid: Uid, namespace: Uid, generation: int, podUid: Uid, endpointRetired: bool)

  /** Some(t) is an acknowledgement observed at t, None an error response. */
  datatype Response = Response(world: World, acknowledged: Option<int>)

  const OBSERVATION_FRESHNESS := 20_000_000_000

  predicate ValidRecord(namespace: Uid, r: Record, now: int) {
    && r.namespace == namespace && r.id.leaseUid != NO_UID && r.id.generation >= 1 && r.id.podUid != NO_UID
    && r.id.applicationAddress != 0 && r.id.publicAddress != 0 && r.id.publicPort != 0
    && r.id.targetPort == r.id.publicPort && r.id.backendPort != 0 && r.expiresAt > now
    && (r.id.protocols == [TCP, UDP] || r.id.protocols == [UDP, TCP])
  }

  /** An older generation, or another target within one generation. */
  predicate Conflicts(r: AppIdentity, previous: AppIdentity) {
    || r.generation < previous.generation
    || (r.generation == previous.generation &&
        (r.podUid != previous.podUid || r.applicationAddress != previous.applicationAddress
          || r.targetPort != previous.targetPort))
  }

  function Save(w: World, write: FileWrite): World {
    if write.Saved? || write.replaced then w.(file := w.states) else w
  }

  function Put(w: World, s: AdapterState): World {
    w.(states := w.states[s.record.id.leaseUid := s])
  }

  function Logged(w: World, apply: Apply, e: AppEvent): World {
    if apply.Done? || apply.took then w.(log := w.log + [e]) else w
  }

  function ObservationTime(s: AdapterState): Option<int> {
    if s.observedAt.Some? then s.observedAt else s.appliedAt
  }

  /** Only the expiry changed and this Pod has already applied the record. */
  predicate Renews(w: World, r: Record) {
    && r.id.leaseUid in w.states
    && var p := w.states[r.id.leaseUid];
       p.record.id == r.id && p.adapterPodUid == w.podUid && p.record.expiresAt != r.expiresAt && p.appliedAt.Some?
  }

  /** The very same record was observed recently by this Pod. */
  predicate StillFresh(w: World, r: Record, now: int) {
    && r.id.leaseUid in w.states
    && var p := w.states[r.id.leaseUid];
       && p.record == r && p.adapterPodUid == w.podUid
       && ObservationTime(p).Some? && ObservationTime(p).value > now - OBSERVATION_FRESHNESS
  }

  function Renewed(w: World, r: Record, x: DeliverInputs): Response
    requires r.id.leaseUid in w.states
  {
    var saved := Save(Put(w, w.states[r.id.leaseUid].(record := r, observedAt := Some(x.now))), x.first);
    if x.first.Saved? then Response(saved, Some(x.now)) else Response(saved.(states := w.states), None)
  }

  /** Observe and acknowledge a record that is applied. */
  function Observing(w: World, r: Record, appliedAt: Option<int>, x: DeliverInputs): Response {
    if !x.observeOk then Response(w, None)
    else
      var seen := w.(log := w.log + [Observed(w.podUid, r.id)]);
      Response(Save(Put(seen, AdapterState(r, appliedAt, Some(x.now), w.podUid)), x.third),
               if x.third.Saved? then Some(x.now) else None)
  }

  /** Apply the persisted intent, persist that, then observe. */
  function Applying(w: World, r: Record, x: DeliverInputs): Response {
    var applied := Logged(w, x.apply, Applied(r.id));
    if x.apply.NotDone? then Response(applied, None)
    else
      var saved := Save(Put(applied, AdapterState(r, Some(x.now), None, NO_UID)), x.second);
      if x.second.SaveFailed? then Response(saved, None) else Observing(saved, r, Some(x.now), x)
  }

  /** Persist the intent, apply it unless the same identity is applied already,
      persist that, then observe. */
  function Installed(w: World, r: Record, x: DeliverInputs): Response {
    var l := r.id.leaseUid;
    var kept := if l in w.states && w.states[l].record.id == r.id then w.states[l].appliedAt else None;
    var pending := Save(Put(w, AdapterState(r, kept, None, NO_UID)), x.first);
    if x.first.SaveFailed? then Response(pending.(states := w.states), None)
    else if kept.Some? then Observing(pending, r, kept, x)
    else Applying(pending, r, x)
  }

  function Delivered(w: World, namespace: Uid, r: Record, x: DeliverInputs): Response {
    var l := r.id.leaseUid;
    if !ValidRecord(namespace, r, x.now) || (l in w.states && Conflicts(r.id, w.states[l].record.id)) then
      Response(w, None)
    else if Renews(w, r) then Renewed(w, r, x)
    else if StillFresh(w, r, x.now) then Response(w, ObservationTime(w.states[l]))
    else Installed(w, r, x)
  }

  /** The application is put back on its backend port before the state is
      forgotten, unless the endpoint is retired. */
  function Withdrawn(w: World, namespace: Uid, i: WithdrawIntent, x: WithdrawInputs): (World, bool) {
    var l := i.leaseUid;
    if i.namespace != namespace || i.generation < 1 || i.podUid == NO_UID then (w, false)
    else if l !in w.states then (w, true)
    else if w.states[l].record.id.generation != i.generation || w.states[l].record.id.podUid != i.podUid then (w, false)
    else
      var restored := Logged(w, x.apply, Restored(w.states[l].record.id));
      if !i.endpointRetired && !(x.apply.Done? && x.observeOk) then (restored, false)
      else
        var saved := Save(restored.(states := w.states - {l}), x.save);
        if x.save.Saved? then (saved, true) else (saved.(states := w.states), false)
  }

  // ---- The handler ----

  class Handler {
    const namespace: Uid
    const podUid: Uid
    var states: map<Uid, AdapterState>
    var file: map<Uid, AdapterState>
    ghost var log: seq<AppEvent>

    /** A started process reads its states back from the file. */
    constructor (namespace: Uid, podUid: Uid, file: map<Uid, AdapterState>, ghost log: seq<AppEvent>)
      ensures this.namespace == namespace && this.podUid == podUid && View() == World(podUid, file, file, log)
    {
      this.namespace := namespace;
      this.podUid := podUid;
      this.states := file;
      this.file := file;
      this.log := log;
    }

    ghost function View(): World
      reads this
    {
      World(podUid, states, file, log)
    }

    method Persist(write: FileWrite) returns (ok: bool)
      modifies this`file
      ensures View() == Save(old(View()), write) && ok == write.Saved?
    {
      if write.Saved? || write.replaced {
        file := states;
      }
      ok := write.Saved?;
    }

    method Deliver(r: Record, x: DeliverInputs) returns (acknowledged: Option<int>)
      modifies this
      ensures Response(View(), acknowledged) == Delivered(old(View()), namespace, r, x)
    {
      var l := r.id.leaseUid;
      if !ValidRecord(namespace, r, x.now) {
        return None;
      }
      if l in states && Conflicts(r.id, states[l].record.id) {
        return None;
      }
      var identityEqual := l in states && states[l].record.id == r.id;
      if identityEqual && states[l].adapterPodUid == podUid && states[l].record.expiresAt != r.expiresAt
         && states[l].appliedAt.Some? {
        var previous := states;
        states := states[l := states[l].(record := r, observedAt := Some(x.now))];
        var saved := Persist(x.first);
        if !saved {
          states := previous;
          return None;
        }
        return Some(x.now);
      }
      if identityEqual && states[l].adapterPodUid == podUid && states[l].record == r {
        var observedAt := if states[l].observedAt.Some? then states[l].observedAt else states[l].appliedAt;
        if observedAt.Some? && observedAt.value > x.now - OBSERVATION_FRESHNESS {
          return observedAt;
        }
      }
      acknowledged := InstallRecord(r, x);
    }

    method InstallRecord(r: Record, x: DeliverInputs) returns (acknowledged: Option<int>)
      modifies this
      ensures Response(View(), acknowledged) == Installed(old(View()), r, x)
    {
      var l := r.id.leaseUid;
      var previous := states;
      var needsApply := !(l in states && states[l].record.id == r.id) || states[l].appliedAt.None?;
      var appliedAt := if needsApply then None else states[l].appliedAt;
      states := states[l := AdapterState(r, appliedAt, None, NO_UID)];
      var saved := Persist(x.first);
      if !saved {
        states := previous;
        return None;
      }
      if needsApply {
        if x.apply.Done? || x.apply.took {
          log := log + [Applied(r.id)];
        }
        if x.apply.NotDone? {
          return None;
        }
        appliedAt := Some(x.now);
        states := states[l := AdapterState(r, appliedAt, None, NO_UID)];
        saved := Persist(x.second);
        if !saved {
          return None;
        }
      }
      if !x.observeOk {
        return None;
      }
      log := log + [Observed(podUid, r.id)];
      states := states[l := AdapterState(r, appliedAt, Some(x.now), podUid)];
      saved := Persist(x.third);
      acknowledged := if saved then Some(x.now) else None;
    }

    method Withdraw(i: WithdrawIntent, x: WithdrawInputs) returns (acknowledged: bool)
      modifies this
      ensures (View(), acknowledged) == Withdrawn(old(View()), namespace, i, x)
    {
      var l := i.leaseUid;
      if i.namespace != namespace || i.generation < 1 || i.podUid == NO_UID {
        return false;
      }
      if l !in states {
        return true;
      }
      var state := states[l];
      if state.record.id.generation != i.generation || state.record.id.podUid != i.podUid {
        return false;
      }
      if x.apply.Done? || x.apply.took {
        log := log + [Restored(state.record.id)];
      }
      if x.apply.NotDone? {
        if !i.endpointRetired {
          return false;
        }
      } else if !x.observeOk && !i.endpointRetired {
        return false;
      }
      states := states - {l};
      var saved := Persist(x.save);
      if !saved {
        states := states[l := state];
        assert states == old(states);
        return false;
      }
      return true;
    }
  }

  // ---- Every acknowledgement is backed ----

  ghost predicate AppliedIn(log: seq<AppEvent>, id: AppIdentity) {
    exists i :: 0 <= i < |log| && log[i] == Applied(id)
  }

  ghost predicate AppliedThenObserved(log: seq<AppEvent>, podUid: Uid, id: AppIdentity) {
    exists i, j :: 0 <= i < j < |log| && log[i] == Applied(id) && log[j] == Observed(podUid, id)
  }

  ghost predicate Backed(log: seq<AppEvent>, s: AdapterState) {
    && (s.appliedAt.Some? ==> AppliedIn(log, s.record.id))
    && (s.adapterPodUid != NO_UID ==> s.appliedAt.Some? && AppliedThenObserved(log, s.adapterPodUid, s.record.id))
  }

  ghost predicate AllBacked(log: seq<AppEvent>, states: map<Uid, AdapterState>) {
    forall l :: l in states ==> Backed(log, states[l])
  }

  ghost predicate Inv(w: World) {
    w.podUid != NO_UID && AllBacked(w.log, w.states) && AllBacked(w.log, w.file)
  }

  lemma LogGrows(log: seq<AppEvent>, e: AppEvent, states: map<Uid, AdapterState>)
    requires AllBacked(log, states)
    ensures AllBacked(log + [e], states)
  {
    forall l | l in states ensures Backed(log + [e], states[l]) {
      if states[l].appliedAt.Some? {
        var i :| 0 <= i < |log| && log[i] == Applied(states[l].record.id);
        assert (log + [e])[i] == Applied(states[l].record.id);
      }
      if states[l].adapterPodUid != NO_UID {
        var i, j :| 0 <= i < j < |log| && log[i] == Applied(states[l].record.id)
          && log[j] == Observed(states[l].adapterPodUid, states[l].record.id);
        assert (log + [e])[i] == log[i] && (log + [e])[j] == log[j];
      }
    }
  }

  lemma ObservingBacked(w: World, r: Record, appliedAt: Option<int>, x: DeliverInputs)
    requires Inv(w) && AppliedIn(w.log, r.id) && appliedAt.Some?
    ensures var out := Observing(w, r, appliedAt, x);
            Inv(out.world) && (out.acknowledged.Some? ==> AppliedThenObserved(out.world.log, w.podUid, r.id))
  {
    if x.observeOk {
      var log := w.log + [Observed(w.podUid, r.id)];
      LogGrows(w.log, Observed(w.podUid, r.id), w.states);
      LogGrows(w.log, Observed(w.podUid, r.id), w.file);
      var i :| 0 <= i < |w.log| && w.log[i] == Applied(r.id);
      assert log[i] == Applied(r.id) && log[|w.log|] == Observed(w.podUid, r.id);
    }
  }

  lemma InstalledBacked(w: World, r: Record, x: DeliverInputs)
    requires Inv(w)
    ensures var out := Installed(w, r, x);
            Inv(out.world) && (out.acknowledged.Some? ==> AppliedThenObserved(out.world.log, w.podUid, r.id))
  {
    var l := r.id.leaseUid;
    var kept := if l in w.states && w.states[l].record.id == r.id then w.states[l].appliedAt else None;
    var pending := Save(Put(w, AdapterState(r, kept, None, NO_UID)), x.first);
    assert Inv(pending);
    if x.first.Saved? && kept.Some? {
      ObservingBacked(pending, r, kept, x);
    } else if x.first.Saved? && x.apply != NotDone(false) {
      var applied := Logged(pending, x.apply, Applied(r.id));
      LogGrows(pending.log, Applied(r.id), pending.states);
      LogGrows(pending.log, Applied(r.id), pending.file);
      assert applied.log[|pending.log|] == Applied(r.id);
      var saved := Save(Put(applied, AdapterState(r, Some(x.now), None, NO_UID)), x.second);
      if x.apply.Done? && x.second.Saved? {
        ObservingBacked(saved, r, Some(x.now), x);
      }
    }
  }

  lemma RenewedBacked(w: World, r: Record, x: DeliverInputs)
    requires Inv(w) && Renews(w, r)
    ensures Inv(Renewed(w, r, x).world) && AppliedThenObserved(w.log, w.podUid, r.id)
  {
    assert Backed(w.log, w.states[r.id.leaseUid]);
  }

  lemma DeliverBacked(w: World, namespace: Uid, r: Record, x: DeliverInputs)
    requires Inv(w)
    ensures var out := Delivered(w, namespace, r, x);
            Inv(out.world) && (out.acknowledged.Some? ==> AppliedThenObserved(out.world.log, w.podUid, r.id))
  {
    InstalledBacked(w, r, x);
    if Renews(w, r) {
      RenewedBacked(w, r, x);
    }
    if StillFresh(w, r, x.now) {
      assert Backed(w.log, w.states[r.id.leaseUid]);
    }
  }

  datatype Event =
    | DeliverEvent(record: Record, deliverInputs: DeliverInputs)
    | WithdrawEvent(intent: WithdrawIntent, withdrawInputs: WithdrawInputs)
    | RestartEvent(podUid: Uid)

  /** A restart keeps only the file, possibly in a new Pod. */
  function Next(w: World, namespace: Uid, e: Event): World {
    match e
    case DeliverEvent(r, x) => Delivered(w, namespace, r, x).world
    case WithdrawEvent(i, x) => Withdrawn(w, namespace, i, x).0
    case RestartEvent(podUid) => if podUid == NO_UID then w else World(podUid, w.file, w.file, w.log)
  }

  ghost predicate IsRun(namespace: Uid, trace: seq<World>, events: seq<Event>) {
    && |trace| == |events| + 1 && trace[0].podUid != NO_UID && trace[0].states == trace[0].file == map[]
    && trace[0].log == []
    && forall i :: 0 <= i < |events| ==> trace[i + 1] == Next(trace[i], namespace, events[i])
  }

  lemma {:induction false} RunBacked(namespace: Uid, trace: seq<World>, events: seq<Event>, n: nat)
    requires IsRun(namespace, trace, events) && n <= |events|
    ensures Inv(trace[n])
  {
    if n > 0 {
      RunBacked(namespace, trace, events, n - 1);
      if events[n - 1].DeliverEvent? {
        DeliverBacked(trace[n - 1], namespace, events[n - 1].record, events[n - 1].deliverInputs);
      } else if events[n - 1].WithdrawEvent? && events[n - 1].intent.leaseUid in trace[n - 1].states {
        var w := trace[n - 1];
        LogGrows(w.log, Restored(w.states[events[n - 1].intent.leaseUid].record.id), w.states);
        LogGrows(w.log, Restored(w.states[events[n - 1].intent.leaseUid].record.id), w.file);
      }
    }
  }

  /** In every run, across restarts and state-file failures at any point, a record
      is acknowledged only after its exact identity was applied and then observed
      by the Pod that acknowledges it. */
  lemma AcknowledgedWasObserved(namespace: Uid, trace: seq<World>, events: seq<Event>, k: nat)
    requires IsRun(namespace, trace, events) && k < |events| && events[k].DeliverEvent?
    requires Delivered(trace[k], namespace, events[k].record, events[k].deliverInputs).acknowledged.Some?
    ensures AppliedThenObserved(trace[k + 1].log, trace[k].podUid, events[k].record.id)
  {
    RunBacked(namespace, trace, events, k);
    DeliverBacked(trace[k], namespace, events[k].record, events[k].deliverInputs);
  }

  // ---- When an acknowledged record's port is the one the application has ----

  /** A port that an application was told to listen on. */
  datatype Setting = Setting(address: nat, port: nat)

  function SettingOf(e: AppEvent): Option<Setting> {
    match e
    case Applied(id) => Some(Setting(id.applicationAddress, id.targetPort))
    case Restored(id) => Some(Setting(id.applicationAddress, id.backendPort))
    case Observed(_, _) => None
  }

  /** The port after a setting, for the application at an address that had one before. */
  function Told(t: Option<Setting>, address: nat, before: Option<nat>): Option<nat> {
    if t.Some? && t.value.address == address then Some(t.value.port) else before
  }

  /** The port that the application at an address was last told, for whichever lease. */
  function PortAt(log: seq<AppEvent>, address: nat): Option<nat> {
    if log == [] then None
    else
      Told(SettingOf(log[|log| - 1]), address, PortAt(log[..|log| - 1], address))
  }

  lemma PortOfLonger(log: seq<AppEvent>, e: AppEvent, address: nat)
    ensures PortAt(log + [e], address) == Told(SettingOf(e), address, PortAt(log, address))
  {
    assert (log + [e])[..|log|] == log;
  }

  /** A state that says applied is about an application on its port. */
  predicate Holds(log: seq<AppEvent>, s: AdapterState) {
    s.appliedAt.Some? ==> PortAt(log, s.record.id.applicationAddress) == Some(s.record.id.targetPort)
  }

  /** What is remembered of a lease as applied, in memory or in the file, is so. */
  predicate InStep(w: World, l: Uid) {
    (l in w.states ==> Holds(w.log, w.states[l])) && (l in w.file ==> Holds(w.log, w.file[l]))
  }

  predicate AlreadyApplied(w: World, r: Record) {
    r.id.leaseUid in w.states && w.states[r.id.leaseUid].record.id == r.id && w.states[r.id.leaseUid].appliedAt.Some?
  }

  /** A delivery that applies its record, or may have. */
  predicate Applies(w: World, namespace: Uid, r: Record, x: DeliverInputs) {
    var l := r.id.leaseUid;
    && ValidRecord(namespace, r, x.now) && !(l in w.states && Conflicts(r.id, w.states[l].record.id))
    && !AlreadyApplied(w, r)
    && !StillFresh(w, r, x.now) && x.first.Saved? && x.apply != NotDone(false)
  }

  /** A withdrawal that restores the backend port, or may have. */
  predicate Restores(w: World, namespace: Uid, i: WithdrawIntent, x: WithdrawInputs) {
    && i.namespace == namespace && i.generation >= 1 && i.podUid != NO_UID && i.leaseUid in w.states
    && w.states[i.leaseUid].record.id.generation == i.generation && w.states[i.leaseUid].record.id.podUid == i.podUid
    && x.apply != NotDone(false)
  }

  /** What a call tells an application. */
  function Sets(w: World, namespace: Uid, e: Event): Option<Setting> {
    match e
    case DeliverEvent(r, x) =>
      if Applies(w, namespace, r, x) then Some(Setting(r.id.applicationAddress, r.id.targetPort)) else None
    case WithdrawEvent(i, x) =>
      if Restores(w, namespace, i, x) then
        var id := w.states[i.leaseUid].record.id;
        Some(Setting(id.applicationAddress, id.backendPort))
      else None
    case RestartEvent(_) => None
  }

  predicate Against(s: AdapterState, t: Setting) {
    s.appliedAt.Some? && s.record.id.applicationAddress == t.address && s.record.id.targetPort != t.port
  }

  /** The withdrawal gets to forgetting the lease. */
  predicate Forgets(e: Event) {
    e.WithdrawEvent? && (e.intent.endpointRetired || (e.withdrawInputs.apply.Done? && e.withdrawInputs.observeOk))
  }

  /** The call leaves what memory holds of this lease as it is. */
  predicate KeepsMemory(e: Event, l: Uid) {
    match e
    case DeliverEvent(r, _) => l != r.id.leaseUid
    case WithdrawEvent(i, x) => l != i.leaseUid || !(Forgets(e) && x.save.Saved?)
    case RestartEvent(_) => false
  }

  predicate KeepsFile(e: Event) {
    e.WithdrawEvent? && !(Forgets(e) && e.withdrawInputs.save != SaveFailed(false))
  }

  /** The call puts the application of this lease on another port, and what it leaves in
      memory or in the file still says the lease is applied there. */
  predicate Disturbs(w: World, namespace: Uid, e: Event, l: Uid) {
    var t := Sets(w, namespace, e);
    && t.Some?
    && (|| (l in w.states && KeepsMemory(e, l) && Against(w.states[l], t.value))
        || (l in w.file && KeepsFile(e) && Against(w.file[l], t.value)))
  }

  function Entries(happens: bool, e: AppEvent): seq<AppEvent> {
    if happens then [e] else []
  }

  lemma PortOfEntries(log: seq<AppEvent>, happens: bool, e: AppEvent, a: nat)
    ensures PortAt(log + Entries(happens, e), a) ==
            if happens then Told(SettingOf(e), a, PortAt(log, a)) else PortAt(log, a)
  {
    if happens {
      PortOfLonger(log, e, a);
    } else {
      assert log + [] == log;
    }
  }

  /** What an installation adds to the history. */
  lemma InstalledLog(w: World, r: Record, x: DeliverInputs)
    ensures var applies := !AlreadyApplied(w, r) && x.first.Saved? && x.apply != NotDone(false);
            var sees := x.first.Saved? && (AlreadyApplied(w, r) || (x.apply.Done? && x.second.Saved?)) && x.observeOk;
            Installed(w, r, x).world.log ==
            w.log + Entries(applies, Applied(r.id)) + Entries(sees, Observed(w.podUid, r.id))
  {
  }

  lemma DeliveredLog(w: World, namespace: Uid, r: Record, x: DeliverInputs) returns (sees: bool)
    ensures Delivered(w, namespace, r, x).world.log ==
            w.log + Entries(Applies(w, namespace, r, x), Applied(r.id)) + Entries(sees, Observed(w.podUid, r.id))
  {
    InstalledLog(w, r, x);
    var refused := !ValidRecord(namespace, r, x.now)
      || (r.id.leaseUid in w.states && Conflicts(r.id, w.states[r.id.leaseUid].record.id));
    sees := !refused && !Renews(w, r) && !StillFresh(w, r, x.now)
            && x.first.Saved? && (AlreadyApplied(w, r) || (x.apply.Done? && x.second.Saved?)) && x.observeOk;
  }

  /** One call changes the port of exactly the application it tells, to what it says. */
  lemma SetsExactly(w: World, namespace: Uid, e: Event, a: nat)
    ensures PortAt(Next(w, namespace, e).log, a) == Told(Sets(w, namespace, e), a, PortAt(w.log, a))
  {
    match e
    case DeliverEvent(r, x) => DeliverSets(w, namespace, r, x, a);
    case WithdrawEvent(i, x) =>
      if i.leaseUid in w.states {
        PortOfLonger(w.log, Restored(w.states[i.leaseUid].record.id), a);
      }
    case RestartEvent(_) =>
  }

  lemma DeliverSets(w: World, namespace: Uid, r: Record, x: DeliverInputs, a: nat)
    ensures PortAt(Delivered(w, namespace, r, x).world.log, a) ==
            if Applies(w, namespace, r, x) then Told(SettingOf(Applied(r.id)), a, PortAt(w.log, a))
            else PortAt(w.log, a)
  {
    var sees := DeliveredLog(w, namespace, r, x);
    var applied := Entries(Applies(w, namespace, r, x), Applied(r.id));
    PortOfEntries(w.log, Applies(w, namespace, r, x), Applied(r.id), a);
    PortOfEntries(w.log + applied, sees, Observed(w.podUid, r.id), a);
  }

  /** What an installation leaves of its own lease is about the record it applied. */
  lemma OwnInStep(w: World, r: Record, x: DeliverInputs)
    requires InStep(w, r.id.leaseUid)
    ensures InStep(Installed(w, r, x).world, r.id.leaseUid)
  {
    var l := r.id.leaseUid;
    var kept := if l in w.states && w.states[l].record.id == r.id then w.states[l].appliedAt else None;
    var pending := Save(Put(w, AdapterState(r, kept, None, NO_UID)), x.first);
    if x.first.Saved? && kept.Some? {
      ObservingInStep(pending, r, kept, x);
    } else if x.first.Saved? {
      ApplyingInStep(pending, r, x);
    }
  }

  lemma ApplyingInStep(w: World, r: Record, x: DeliverInputs)
    requires var l := r.id.leaseUid;
             l in w.states && w.states[l].appliedAt.None? && l in w.file && w.file[l].appliedAt.None?
    ensures InStep(Applying(w, r, x).world, r.id.leaseUid)
  {
    var applied := Logged(w, x.apply, Applied(r.id));
    PortOfLonger(w.log, Applied(r.id), r.id.applicationAddress);
    if x.apply.Done? {
      ObservingInStep(Save(Put(applied, AdapterState(r, Some(x.now), None, NO_UID)), x.second), r, Some(x.now), x);
    }
  }

  lemma ObservingInStep(w: World, r: Record, appliedAt: Option<int>, x: DeliverInputs)
    requires InStep(w, r.id.leaseUid) && PortAt(w.log, r.id.applicationAddress) == Some(r.id.targetPort)
    ensures InStep(Observing(w, r, appliedAt, x).world, r.id.leaseUid)
  {
    var l, e := r.id.leaseUid, Observed(w.podUid, r.id);
    PortOfLonger(w.log, e, r.id.applicationAddress);
    if l in w.states {
      PortOfLonger(w.log, e, w.states[l].record.id.applicationAddress);
    }
    if l in w.file {
      PortOfLonger(w.log, e, w.file[l].record.id.applicationAddress);
    }
  }

  predicate SameAt(a: map<Uid, AdapterState>, b: map<Uid, AdapterState>, l: Uid) {
    if l in a then l in b && a[l] == b[l] else l !in b
  }

  /** What a delivery leaves of other leases: memory as it was, and the file as it was or
      as memory. If the record is applied, it is as memory. */
  lemma OthersKept(w: World, namespace: Uid, r: Record, x: DeliverInputs, l: Uid)
    requires l != r.id.leaseUid
    ensures var out := Delivered(w, namespace, r, x).world;
            && SameAt(out.states, w.states, l) && (SameAt(out.file, w.file, l) || SameAt(out.file, w.states, l))
            && (Applies(w, namespace, r, x) ==> SameAt(out.file, w.states, l))
  {
    InstalledOthers(w, r, x, l);
  }

  lemma InstalledOthers(w: World, r: Record, x: DeliverInputs, l: Uid)
    requires l != r.id.leaseUid
    ensures var out := Installed(w, r, x).world;
            && SameAt(out.states, w.states, l) && (SameAt(out.file, w.file, l) || SameAt(out.file, w.states, l))
            && (x.first.Saved? ==> SameAt(out.file, w.states, l))
  {
    var m := r.id.leaseUid;
    var kept := if m in w.states && w.states[m].record.id == r.id then w.states[m].appliedAt else None;
    var pending := Save(Put(w, AdapterState(r, kept, None, NO_UID)), x.first);
    var applied := Logged(pending, x.apply, Applied(r.id));
    var saved := Save(Put(applied, AdapterState(r, Some(x.now), None, NO_UID)), x.second);
    assert SameAt(pending.states, w.states, l) && SameAt(saved.states, w.states, l);
    assert x.first.Saved? ==> SameAt(pending.file, w.states, l) && SameAt(saved.file, w.states, l);
  }

  lemma OwnDelivery(w: World, namespace: Uid, r: Record, x: DeliverInputs)
    requires InStep(w, r.id.leaseUid)
    ensures InStep(Delivered(w, namespace, r, x).world, r.id.leaseUid)
  {
    OwnInStep(w, r, x);
  }

  lemma DeliverKeepsStep(w: World, namespace: Uid, e: Event, l: Uid)
    requires InStep(w, l) && e.DeliverEvent?
    ensures InStep(Next(w, namespace, e), l) <==> !Disturbs(w, namespace, e, l)
  {
    if l == e.record.id.leaseUid {
      OwnDelivery(w, namespace, e.record, e.deliverInputs);
    } else {
      OthersKept(w, namespace, e.record, e.deliverInputs, l);
      if l in w.states {
        SetsExactly(w, namespace, e, w.states[l].record.id.applicationAddress);
      }
      if l in w.file {
        SetsExactly(w, namespace, e, w.file[l].record.id.applicationAddress);
      }
    }
  }

  predicate OnlyFrom(after: map<Uid, AdapterState>, before: map<Uid, AdapterState>, l: Uid) {
    l in after ==> l in before && after[l] == before[l]
  }

  /** What a withdrawal leaves of any lease. */
  lemma WithdrawLeaves(w: World, namespace: Uid, e: Event, l: Uid)
    requires e.WithdrawEvent?
    ensures var out := Next(w, namespace, e);
            && OnlyFrom(out.states, w.states, l) && (OnlyFrom(out.file, w.file, l) || OnlyFrom(out.file, w.states, l))
            && (Restores(w, namespace, e.intent, e.withdrawInputs) ==>
                  && (l in out.states <==> l in w.states && KeepsMemory(e, l))
                  && (KeepsFile(e) ==> out.file == w.file)
                  && (!KeepsFile(e) ==> OnlyFrom(out.file, w.states, l) && (l in out.file ==> l != e.intent.leaseUid)))
  {
  }

  lemma WithdrawKeepsStep(w: World, namespace: Uid, e: Event, l: Uid)
    requires InStep(w, l) && e.WithdrawEvent?
    ensures InStep(Next(w, namespace, e), l) <==> !Disturbs(w, namespace, e, l)
  {
    WithdrawLeaves(w, namespace, e, l);
    if l in w.states {
      SetsExactly(w, namespace, e, w.states[l].record.id.applicationAddress);
    }
    if l in w.file {
      SetsExactly(w, namespace, e, w.file[l].record.id.applicationAddress);
    }
  }

  /** Every call keeps memory and file in step with the application, if and only if it
      does not disturb the lease. */
  lemma StepKeepsInStep(w: World, namespace: Uid, e: Event, l: Uid)
    requires InStep(w, l)
    ensures InStep(Next(w, namespace, e), l) <==> !Disturbs(w, namespace, e, l)
  {
    if e.WithdrawEvent? {
      WithdrawKeepsStep(w, namespace, e, l);
    } else if e.DeliverEvent? {
      DeliverKeepsStep(w, namespace, e, l);
    }
  }

  ghost predicate NoneDisturbs(namespace: Uid, trace: seq<World>, events: seq<Event>, l: Uid, n: nat)
    requires n <= |events| < |trace|
  {
    forall k :: 0 <= k < n ==> !Disturbs(trace[k], namespace, events[k], l)
  }

  lemma {:induction false} RunInStep(namespace: Uid, trace: seq<World>, events: seq<Event>, l: Uid, n: nat)
    requires IsRun(namespace, trace, events) && n <= |events| && NoneDisturbs(namespace, trace, events, l, n)
    ensures InStep(trace[n], l)
  {
    if n > 0 {
      RunInStep(namespace, trace, events, l, n - 1);
      StepKeepsInStep(trace[n - 1], namespace, events[n - 1], l);
    }
  }

  /** In a run in which no call disturbs a lease, an acknowledged record of it is one whose
      application was last told its port. */
  lemma AcknowledgedIsLastApplied(namespace: Uid, trace: seq<World>, events: seq<Event>, k: nat)
    requires IsRun(namespace, trace, events) && k < |events| && events[k].DeliverEvent?
    requires NoneDisturbs(namespace, trace, events, events[k].record.id.leaseUid, k)
    requires Delivered(trace[k], namespace, events[k].record, events[k].deliverInputs).acknowledged.Some?
    ensures PortAt(trace[k + 1].log, events[k].record.id.applicationAddress) == Some(events[k].record.id.targetPort)
  {
    var l := events[k].record.id.leaseUid;
    RunInStep(namespace, trace, events, l, k);
    RunBacked(namespace, trace, events, k);
    DeliverKeepsStep(trace[k], namespace, events[k], l);
    AcknowledgedIsRemembered(trace[k], namespace, events[k].record, events[k].deliverInputs);
  }

  lemma AcknowledgedIsRemembered(w: World, namespace: Uid, r: Record, x: DeliverInputs)
    requires Inv(w) && Delivered(w, namespace, r, x).acknowledged.Some?
    ensures var s := Delivered(w, namespace, r, x).world.states;
            r.id.leaseUid in s && s[r.id.leaseUid].record.id == r.id && s[r.id.leaseUid].appliedAt.Some?
  {
  }

  /** The last call of a run that told the application at an address its port. */
  ghost function LastSet(namespace: Uid, trace: seq<World>, events: seq<Event>, n: nat, a: nat): Option<nat>
    requires n <= |events| < |trace|
  {
    if n == 0 then None
    else
      Told(Sets(trace[n - 1], namespace, events[n - 1]), a, LastSet(namespace, trace, events, n - 1, a))
  }

  /** In every run the application's port is the one that the last call about it said,
      whichever lease that call was for. */
  lemma {:induction false} PortIsLastSet(namespace: Uid, trace: seq<World>, events: seq<Event>, n: nat, a: nat)
    requires IsRun(namespace, trace, events) && n <= |events|
    ensures PortAt(trace[n].log, a) == LastSet(namespace, trace, events, n, a)
  {
    if n > 0 {
      PortIsLastSet(namespace, trace, events, n - 1, a);
      SetsExactly(trace[n - 1], namespace, events[n - 1], a);
    }
  }

  // ---- Acknowledged on another port ----

  const SAVED := DeliverInputs(2, Saved, Done, Saved, true, Saved)

  function IdAt(l: Uid, port: nat): AppIdentity {
    AppIdentity(l, 1, 1, 1, port, port, 7, 9, [TCP, UDP])
  }

  function ObservedState(l: Uid, port: nat, expiresAt: int): AdapterState {
    AdapterState(Record(IdAt(l, port), 1, expiresAt), Some(2), Some(2), 1)
  }

  /** A withdrawal whose observation fails, then a renewal: acknowledged, while the
      application is back on its backend port. */
  lemma RenewedOnBackendPort()
    ensures var id := IdAt(1, 1000);
            var states := map[1 := ObservedState(1, 1000, 100)];
            var applied := World(1, states, states, [Applied(id), Observed(1, id)]);
            var withdrawal := WithdrawEvent(WithdrawIntent(1, 1, 1, 1, false), WithdrawInputs(Done, false, Saved));
            var renewed := Delivered(Next(applied, 1, withdrawal), 1, Record(id, 1, 200), SAVED);
            && InStep(applied, 1) && Disturbs(applied, 1, withdrawal, 1)
            && renewed.acknowledged.Some? && PortAt(renewed.world.log, 7) == Some(9)
  {
    var id := IdAt(1, 1000);
    assert PortAt([Applied(id), Observed(1, id)], 7) == Some(1000) by {
      assert [Applied(id), Observed(1, id)][..1] == [Applied(id)];
    }
    PortOfLonger([Applied(id), Observed(1, id)], Restored(id), 7);
  }

  /** Two leases of one application: the second delivery takes the port from the first,
      whose renewal is acknowledged all the same. */
  lemma RenewedOnOthersPort()
    ensures var a, b := IdAt(1, 1000), IdAt(2, 2000);
            var one, two := DeliverEvent(Record(a, 1, 100), SAVED), DeliverEvent(Record(b, 1, 100), SAVED);
            var start := World(1, map[], map[], []);
            var first := Next(start, 1, one);
            var second := Next(first, 1, two);
            var renewed := Delivered(second, 1, Record(a, 1, 200), SAVED);
            && IsRun(1, [start, first, second], [one, two]) && Disturbs(first, 1, two, 1)
            && renewed.acknowledged.Some? && PortAt(renewed.world.log, 7) == Some(2000)
  {
    var a, b := IdAt(1, 1000), IdAt(2, 2000);
    var one, two := DeliverEvent(Record(a, 1, 100), SAVED), DeliverEvent(Record(b, 1, 100), SAVED);
    var start := World(1, map[], map[], []);
    var first := Next(start, 1, one);
    var second := Next(first, 1, two);
    assert first == World(1, map[1 := ObservedState(1, 1000, 100)], map[1 := ObservedState(1, 1000, 100)],
                          [Applied(a), Observed(1, a)]);
    SetsExactly(first, 1, two, 7);
    assert second.states[1] == first.states[1];
    assert Renews(second, Record(a, 1, 200));
  }
}
