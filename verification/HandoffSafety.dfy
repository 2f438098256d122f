/** The whole port-forward handoff: persisted leases, one elected controller
    whose runtime call and status write are separate steps, and a gateway runtime
    that may restart at any time. Every step may fail or be lost. */
module HandoffSafety {
  import opened Common
  import opened GatewayRuntime
  import opened LeaseController

  datatype Lease = Lease(spec: Spec, status: Status, finalizer: bool, deleting: bool, version: nat)

  /** What a worker still has to write after its runtime call. */
  datatype Pending = WriteStatus(version: nat, status: Status) | RemoveFinalizer(confirmed: bool)

  /** `forced` remembers the leases let go past their cleanup deadline without a confirmed
      withdrawal. */
  datatype System = System(
    leases: map<Uid, Lease>, retired: set<Uid>, forced: set<Uid>, pending: map<Uid, Pending>, runtime: Runtime)

  /** Outcomes of one cleanup pass of a deleted lease. */
  datatype CleanupInputs = CleanupInputs(
    reservationFound: bool, reservationAbsent: bool, providerPort: nat, freshAnswer: bool, deadlinePassed: bool,
    quarantineOk: bool, withdraw: WithdrawInputs)

  datatype Event =
    | Create(created: Spec)
    | Touch(l: Uid)
    | RequestDeletion(l: Uid)
    | Reconcile(l: Uid, evaluation: Evaluation, inputs: CallInputs)
    | Cleanup(l: Uid, cleanup: CleanupInputs)
    | Write(l: Uid, apiOk: bool)
    | ControllerCrash
    | RuntimeRestart

  const FRESH := Status(0, None, OtherMark, 0, false, false)

  const EMPTY := System(map[], {}, {}, map[], Runtime(map[], {}))

  predicate NeedsFinalizer(lease: Lease, e: Evaluation) {
    e.runtimeEligible && (e.hasSelected || lease.status.endpoint.Some?) && !lease.finalizer
  }

  function Remove(s: System, l: Uid, confirmed: bool): System {
    s.(leases := s.leases - {l}, retired := s.retired + {l}, forced := if confirmed then s.forced else s.forced + {l},
       pending := s.pending - {l})
  }

  /** The finalizer is patched in before the first runtime call; otherwise the
      runtime is called and the wanted status is left to be written. */
  function ReconcileStep(s: System, l: Uid, e: Evaluation, x: CallInputs): System
    requires l in s.leases
  {
    var lease := s.leases[l];
    if NeedsFinalizer(lease, e) then
      s.(leases := s.leases[l := lease.(finalizer := true, version := lease.version + 1)])
    else
      var out := RuntimeStatus(s.runtime, lease.spec, lease.status, e, x);
      s.(runtime := out.runtime, pending := s.pending[l := WriteStatus(lease.version, out.status)])
  }

  function CleanupCall(s: System, l: Uid, x: CleanupInputs): GatewayRuntime.Step
    requires l in s.leases
  {
    var lease := s.leases[l];
    if x.reservationFound then
      Withdrawn(s.runtime, lease.spec.gatewayUid, WithdrawalFor(lease.spec, lease.status, false, true, x.providerPort),
                x.withdraw)
    else Step(s.runtime, Rejected)
  }

  /** The withdrawal is confirmed, or there is provably nothing to withdraw. */
  predicate CleanupConfirmed(s: System, l: Uid, x: CleanupInputs)
    requires l in s.leases
  {
    var lease := s.leases[l];
    if x.reservationFound then
      ExactWithdrawal(CleanupCall(s, l, x).reply,
                      WithdrawalFor(lease.spec, lease.status, false, true, x.providerPort)) && x.freshAnswer
    else x.reservationAbsent && lease.status.endpoint.None? && lease.status.publicPort == 0
  }

  function CleanupStep(s: System, l: Uid, x: CleanupInputs): System
    requires l in s.leases
  {
    var confirmed := CleanupConfirmed(s, l, x);
    var called := s.(runtime := CleanupCall(s, l, x).runtime);
    if (confirmed || x.deadlinePassed) && x.quarantineOk then
      called.(pending := s.pending[l := RemoveFinalizer(confirmed)])
    else called
  }

  /** Status writes carry the version that was read, so a write from an outdated
      read is refused. */
  function WriteStep(s: System, l: Uid, apiOk: bool): System
    requires l in s.pending
  {
    var done := s.(pending := s.pending - {l});
    if !apiOk || l !in s.leases then done
    else
      match s.pending[l]
      case WriteStatus(version, status) =>
        if s.leases[l].version != version then done
        else done.(leases := s.leases[l := s.leases[l].(status := status, version := version + 1)])
      case RemoveFinalizer(confirmed) => Remove(s, l, confirmed)
  }

  function Next(s: System, ev: Event): System {
    match ev
    case Create(spec) =>
      if spec.leaseUid == NO_UID || spec.leaseUid in s.leases || spec.leaseUid in s.retired then s
      else s.(leases := s.leases[spec.leaseUid := Lease(spec, FRESH, false, false, 0)])
    case Touch(l) =>
      if l !in s.leases then s else s.(leases := s.leases[l := s.leases[l].(version := s.leases[l].version + 1)])
    case RequestDeletion(l) =>
      if l !in s.leases then s
      else if !s.leases[l].finalizer then Remove(s, l, true)
      else s.(leases := s.leases[l := s.leases[l].(deleting := true, version := s.leases[l].version + 1)])
    case Reconcile(l, e, x) =>
      if l !in s.leases || s.leases[l].deleting || l in s.pending then s else ReconcileStep(s, l, e, x)
    case Cleanup(l, x) =>
      if l !in s.leases || !s.leases[l].deleting || l in s.pending then s else CleanupStep(s, l, x)
    case Write(l, apiOk) =>
      if l !in s.pending then s else WriteStep(s, l, apiOk)
    case ControllerCrash => s.(pending := map[])
    case RuntimeRestart => s.(runtime := s.runtime.(states := map[]))
  }

  ghost predicate IsRun(trace: seq<System>, events: seq<Event>) {
    && |trace| == |events| + 1 && trace[0] == EMPTY
    && forall i :: 0 <= i < |events| ==> StepAt(trace, events, i)
  }

  ghost predicate StepAt(trace: seq<System>, events: seq<Event>, i: nat)
    requires i < |events| < |trace|
  {
    trace[i + 1] == Next(trace[i], events[i])
  }

  // ---- The invariant of one lease ----

  predicate NoRule(rt: Runtime, l: Uid) {
    forall r :: r in rt.installed ==> r.leaseUid != l
  }

  predicate SameTarget(a: Option<Endpoint>, b: Option<Endpoint>) {
    if a.None? || b.None? then a.None? && b.None?
    else a.value.podUid == b.value.podUid && a.value.serviceUid == b.value.serviceUid
  }

  /** The runtime remembers nothing of l, or generation g fully drained. */
  predicate DrainedAt(rt: Runtime, l: Uid, g: int) {
    l in rt.states ==> rt.states[l].intent.generation == g && rt.states[l].drained
  }

  /** Inbound traffic of l goes only to the persisted Pod at the persisted
      generation, and nowhere while no endpoint is persisted. */
  predicate RulesFollow(rt: Runtime, l: Uid, status: Status) {
    forall r :: r in rt.installed && r.leaseUid == l ==>
      status.endpoint.Some? && r.generation == status.generation && r.podUid == status.endpoint.value.podUid
  }

  /** The runtime remembers nothing, the persisted generation, or the previous
      one fully drained. */
  predicate MemoryFollows(rt: Runtime, l: Uid, status: Status) {
    if status.endpoint.None? then DrainedAt(rt, l, status.generation)
    else
      || DrainedAt(rt, l, status.generation - 1)
      || (l in rt.states && rt.states[l].intent.generation == status.generation
          && rt.states[l].intent.podUid == status.endpoint.value.podUid)
  }

  /** A status that may be written over `status` while the runtime is in `rt`. */
  predicate MayFollow(rt: Runtime, l: Uid, status: Status, wanted: Status) {
    || (wanted.generation == status.generation && SameTarget(wanted.endpoint, status.endpoint))
    || (&& NoRule(rt, l) && DrainedAt(rt, l, status.generation)
        && wanted.generation == (if wanted.endpoint.None? then status.generation else status.generation + 1))
  }

  ghost predicate LeaseInv(s: System, l: Uid)
    requires l in s.leases
  {
    var lease := s.leases[l];
    && l == lease.spec.leaseUid && l !in s.retired && (lease.deleting ==> lease.finalizer)
    && RulesFollow(s.runtime, l, lease.status)
    && MemoryFollows(s.runtime, l, lease.status)
    && (!lease.finalizer ==> NoRule(s.runtime, l) && l !in s.runtime.states)
    && (l in s.pending && s.pending[l].WriteStatus? ==>
          && s.pending[l].version <= lease.version
          && (s.pending[l].version == lease.version ==> MayFollow(s.runtime, l, lease.status, s.pending[l].status)))
    && (l in s.pending && s.pending[l] == RemoveFinalizer(true) ==> Cleared(s.runtime, l))
  }

  /** No rule, and nothing in memory that could show one. */
  predicate Cleared(rt: Runtime, l: Uid) {
    NoRule(rt, l) && (l in rt.states ==> rt.states[l].drained)
  }

  ghost predicate Inv(s: System) {
    && (forall l :: l in s.leases ==> LeaseInv(s, l))
    && (forall l :: l in s.runtime.states ==> s.runtime.states[l].intent.leaseUid == l)
    && (forall l :: l in s.pending ==> l in s.leases)
    && (forall l :: l in s.runtime.states ==> l in s.leases || l in s.retired)
    && (forall r :: r in s.runtime.installed ==> r.leaseUid in s.leases || r.leaseUid in s.retired)
    && (forall l :: l in s.retired && l !in s.forced ==> Cleared(s.runtime, l))
  }

  // ---- What a runtime call for one lease does to it and to the others ----

  /** A call for l leaves the memory of other leases alone and shows, for each
      lease, an old rule or the rule of its present state. */
  ghost predicate CallFor(rt: Runtime, rt': Runtime, l: Uid) {
    && (forall k :: k != l ==> (k in rt.states <==> k in rt'.states))
    && (forall k :: k != l && k in rt.states ==> rt'.states[k] == rt.states[k])
    && (forall k :: k in rt'.states ==> rt'.states[k].intent.leaseUid == k)
    && (forall r :: r in rt'.installed && r.leaseUid != l ==>
          r in rt.installed
          || (r.leaseUid in rt.states && !rt.states[r.leaseUid].drained && r == RuleFor(rt.states[r.leaseUid])))
  }

  ghost predicate WellKeyed(rt: Runtime) {
    forall l :: l in rt.states ==> rt.states[l].intent.leaseUid == l
  }

  /** For l itself, a withdrawal shows no rule that was not shown or remembered
      before, and keeps the remembered intent unless it forgets l. */
  ghost predicate OnlyWithdraws(rt: Runtime, rt': Runtime, l: Uid) {
    && CallFor(rt, rt', l)
    && (l in rt'.states ==> l in rt.states && rt'.states[l].intent == rt.states[l].intent
                            && (rt.states[l].drained ==> rt'.states[l].drained))
    && (forall r :: r in rt'.installed && r.leaseUid == l ==> r in rt.installed)
  }

  lemma WithdrawEffect(rt: Runtime, gatewayUid: Uid, w: Withdrawal, x: WithdrawInputs)
    requires WellKeyed(rt)
    ensures var step := Withdrawn(rt, gatewayUid, w, x);
            && OnlyWithdraws(rt, step.runtime, w.leaseUid)
            && (step.reply.Answered? && step.reply.observation.withdrawn ==>
                  NoRule(step.runtime, w.leaseUid) && DrainedAt(step.runtime, w.leaseUid, w.generation))
  {
    var l := w.leaseUid;
    DrainingPut(rt, l, x.rulesNow, x.write);
    var undrained := l in rt.states && !rt.states[l].drained;
    var draining := if undrained then rt.states[l := rt.states[l].(draining := true)] else rt.states;
    if x.write.Written? && (l in rt.states ==> rt.states[l].intent.generation == w.generation) {
      ReleasedEffect(rt, Put(rt, draining, x.rulesNow, x.write), w, x);
    }
  }

  /** The table without the lease that is being withdrawn. */
  lemma DrainingPut(rt: Runtime, l: Uid, now: int, write: TableWrite)
    requires WellKeyed(rt)
    ensures var undrained := l in rt.states && !rt.states[l].drained;
            var draining := if undrained then rt.states[l := rt.states[l].(draining := true)] else rt.states;
            var put := Put(rt, draining, now, write);
            && OnlyWithdraws(rt, put, l) && (write.Written? ==> NoRule(put, l))
            && (l in rt.states && write.WriteFailed? ==>
                  OnlyWithdraws(rt, put.(states := rt.states[l := rt.states[l].(draining := false)]), l))
  {
  }

  lemma ReleasedEffect(rt: Runtime, put: Runtime, w: Withdrawal, x: WithdrawInputs)
    requires OnlyWithdraws(rt, put, w.leaseUid) && NoRule(put, w.leaseUid)
    requires w.leaseUid in put.states ==> put.states[w.leaseUid].intent.generation == w.generation
    ensures var step := Released(put, w, x);
            && OnlyWithdraws(rt, step.runtime, w.leaseUid)
            && (step.reply.Answered? && step.reply.observation.withdrawn ==>
                  NoRule(step.runtime, w.leaseUid) && DrainedAt(step.runtime, w.leaseUid, w.generation))
  {
  }

  lemma WithdrawCall(
    rt: Runtime, spec: Spec, status: Status, retired: bool, release: bool, port: nat, x: WithdrawInputs)
    requires WellKeyed(rt) && RulesFollow(rt, spec.leaseUid, status) && MemoryFollows(rt, spec.leaseUid, status)
    ensures var w := WithdrawalFor(spec, status, retired, release, port);
            var step := Withdrawn(rt, spec.gatewayUid, w, x);
            && CallFor(rt, step.runtime, spec.leaseUid)
            && RulesFollow(step.runtime, spec.leaseUid, status) && MemoryFollows(step.runtime, spec.leaseUid, status)
            && (ExactWithdrawal(step.reply, w) ==>
                  NoRule(step.runtime, spec.leaseUid) && DrainedAt(step.runtime, spec.leaseUid, status.generation))
  {
    WithdrawEffect(rt, spec.gatewayUid, WithdrawalFor(spec, status, retired, release, port), x);
  }

  /** Writing a table whose states differ only at l. */
  lemma PutCall(rt: Runtime, states: map<Uid, RuntimeState>, l: Uid, now: int, write: TableWrite)
    requires WellKeyed(rt) && (forall k :: k in states ==> states[k].intent.leaseUid == k)
    requires forall k :: k != l ==> (k in rt.states <==> k in states) && (k in states ==> states[k] == rt.states[k])
    ensures var put := Put(rt, states, now, write);
            && CallFor(rt, put, l)
            && forall r :: r in put.installed && r.leaseUid == l ==>
                 r in rt.installed || (l in states && !states[l].drained && r == RuleFor(states[l]))
  {
  }

  /** The runtime still follows the status after a call for l. */
  ghost predicate StillFollows(rt: Runtime, rt': Runtime, l: Uid, status: Status) {
    CallFor(rt, rt', l) && RulesFollow(rt', l, status) && MemoryFollows(rt', l, status)
  }

  lemma ProgramCall(rt: Runtime, l: Uid, status: Status, state: RuntimeState, x: ReconcileInputs)
    requires WellKeyed(rt) && RulesFollow(rt, l, status) && MemoryFollows(rt, l, status) && status.endpoint.Some?
    requires state.intent.leaseUid == l && state.intent.generation == status.generation
    requires state.intent.podUid == status.endpoint.value.podUid
    ensures StillFollows(rt, Programmed(rt, state, x).runtime, l, status)
  {
    PutCall(rt, rt.states[l := state], l, x.rulesNow, x.write);
  }

  lemma BlockCall(rt: Runtime, l: Uid, status: Status, x: ReconcileInputs)
    requires WellKeyed(rt) && RulesFollow(rt, l, status) && MemoryFollows(rt, l, status) && l in rt.states
    ensures StillFollows(rt, Put(rt, rt.states[l := rt.states[l].(blocked := true)], x.rulesNow, x.write), l, status)
  {
    PutCall(rt, rt.states[l := rt.states[l].(blocked := true)], l, x.rulesNow, x.write);
    assert forall r :: r in RuleSet(rt.states[l := rt.states[l].(blocked := true)], x.rulesNow) ==> r.leaseUid != l;
  }

  lemma ReconcileCall(rt: Runtime, spec: Spec, status: Status, e: Evaluation, port: nat, x: ReconcileInputs)
    requires WellKeyed(rt) && RulesFollow(rt, spec.leaseUid, status) && MemoryFollows(rt, spec.leaseUid, status)
    requires status.endpoint.Some? && e.selected.podUid == status.endpoint.value.podUid
    ensures StillFollows(rt, Reconciled(rt, spec.gatewayUid, IntentFor(spec, status, e, port), x).runtime,
                         spec.leaseUid, status)
  {
    var l, intent := spec.leaseUid, IntentFor(spec, status, e, port);
    if l in rt.states {
      BlockCall(rt, l, status, x);
    }
    PutCall(rt, rt.states - {l}, l, x.rulesNow, x.write);
    var mapped := Refreshed(rt.states, l, x);
    if mapped.Some? {
      ProgramCall(rt, l, status, RuntimeState(intent, mapped.value.0, mapped.value.1, false, false, false), x);
    }
  }

  /** After the call the runtime still follows the persisted status, and the status then
      wanted may be written over it. */
  ghost predicate CallFollows(rt: Runtime, out: Outcome, l: Uid, status: Status) {
    && CallFor(rt, out.runtime, l)
    && RulesFollow(out.runtime, l, status) && MemoryFollows(out.runtime, l, status)
    && MayFollow(out.runtime, l, status, out.status)
  }

  lemma DrainedCall(rt: Runtime, spec: Spec, status: Status, e: Evaluation, x: CallInputs)
    requires WellKeyed(rt) && RulesFollow(rt, spec.leaseUid, status) && MemoryFollows(rt, spec.leaseUid, status)
    requires status.endpoint.Some?
    ensures CallFollows(rt, Drained(rt, spec, status, e, x), spec.leaseUid, status)
  {
    var retired := e.hasSelected && e.selected.podUid != status.endpoint.value.podUid;
    WithdrawCall(rt, spec, status, retired, false, x.providerPort, x.withdraw);
  }

  lemma ServedCall(rt: Runtime, spec: Spec, status: Status, e: Evaluation, x: CallInputs)
    requires WellKeyed(rt) && RulesFollow(rt, spec.leaseUid, status) && MemoryFollows(rt, spec.leaseUid, status)
    requires status.endpoint.Some? && HandoffDrainReason(status.endpoint, e).NoDrain?
    requires e.runtimeEligible
    ensures CallFollows(rt, Served(rt, spec, status, e, x), spec.leaseUid, status)
  {
    ReconcileCall(rt, spec, status, e, x.providerPort, x.reconcile);
  }

  /** One reconcile, seen from its own lease: the runtime still follows the
      persisted status, and the status it wants to write may follow it. */
  lemma StatusCall(rt: Runtime, spec: Spec, status: Status, e: Evaluation, x: CallInputs)
    requires WellKeyed(rt) && RulesFollow(rt, spec.leaseUid, status) && MemoryFollows(rt, spec.leaseUid, status)
    ensures CallFollows(rt, RuntimeStatus(rt, spec, status, e, x), spec.leaseUid, status)
  {
    if status.endpoint.Some? && e.runtimeEligible {
      if HandoffDrainReason(status.endpoint, e).NoDrain? {
        ServedCall(rt, spec, status, e, x);
      } else {
        DrainedCall(rt, spec, status, e, x);
      }
    }
  }

  lemma OtherLease(s: System, s': System, l: Uid, k: Uid)
    requires Inv(s) && k in s.leases && k in s'.leases && k != l
    requires s'.leases[k] == s.leases[k] && k !in s'.retired && CallFor(s.runtime, s'.runtime, l)
    requires k in s'.pending ==> k in s.pending && s'.pending[k] == s.pending[k]
    ensures LeaseInv(s', k)
  {
  }

  lemma ReconcileKeepsInv(s: System, l: Uid, e: Evaluation, x: CallInputs)
    requires Inv(s) && l in s.leases && l !in s.pending
    ensures Inv(ReconcileStep(s, l, e, x))
  {
    var s' := ReconcileStep(s, l, e, x);
    var lease := s.leases[l];
    StatusCall(s.runtime, lease.spec, lease.status, e, x);
    assert CallFor(s.runtime, s'.runtime, l);
    OwnReconcile(s, l, e, x);
    forall k | k in s'.leases ensures LeaseInv(s', k) {
      if k != l {
        OtherLease(s, s', l, k);
      }
    }
  }

  lemma OwnReconcile(s: System, l: Uid, e: Evaluation, x: CallInputs)
    requires l in s.leases && LeaseInv(s, l) && WellKeyed(s.runtime) && l !in s.pending
    ensures l in ReconcileStep(s, l, e, x).leases && LeaseInv(ReconcileStep(s, l, e, x), l)
  {
    StatusCall(s.runtime, s.leases[l].spec, s.leases[l].status, e, x);
  }

  lemma CleanupKeepsInv(s: System, l: Uid, x: CleanupInputs)
    requires Inv(s) && l in s.leases && l !in s.pending && s.leases[l].finalizer
    ensures Inv(CleanupStep(s, l, x))
  {
    var s' := CleanupStep(s, l, x);
    var lease := s.leases[l];
    WithdrawCall(s.runtime, lease.spec, lease.status, false, true, x.providerPort, x.withdraw);
    assert CallFor(s.runtime, s'.runtime, l);
    forall k | k in s'.leases ensures LeaseInv(s', k) {
      if k != l {
        OtherLease(s, s', l, k);
      }
    }
  }

  lemma RemovalKeepsInv(s: System, l: Uid, confirmed: bool)
    requires Inv(s) && l in s.leases && (confirmed ==> Cleared(s.runtime, l))
    ensures Inv(Remove(s, l, confirmed))
  {
    var next := Remove(s, l, confirmed);
    forall k | k in next.leases ensures LeaseInv(next, k) {
      assert LeaseInv(s, k);
    }
  }

  lemma LeaseObjectKeepsInv(s: System, ev: Event)
    requires Inv(s) && (ev.Create? || ev.Touch? || ev.RequestDeletion?)
    ensures Inv(Next(s, ev))
  {
    if ev.RequestDeletion? && ev.l in s.leases && !s.leases[ev.l].finalizer {
      assert LeaseInv(s, ev.l);
      RemovalKeepsInv(s, ev.l, true);
    } else {
      var next := Next(s, ev);
      forall k | k in next.leases ensures LeaseInv(next, k) {
        if k in s.leases {
          assert LeaseInv(s, k);
        }
      }
    }
  }

  lemma WriteKeepsInv(s: System, l: Uid, apiOk: bool)
    requires Inv(s) && l in s.pending
    ensures Inv(WriteStep(s, l, apiOk))
  {
    if apiOk && l in s.leases && s.pending[l].RemoveFinalizer? {
      assert LeaseInv(s, l);
      RemovalKeepsInv(s, l, s.pending[l].confirmed);
    }
  }

  lemma RestartsKeepInv(s: System)
    requires Inv(s)
    ensures Inv(s.(pending := map[])) && Inv(s.(runtime := s.runtime.(states := map[])))
  {
    assert forall l :: l in s.leases ==> LeaseInv(s, l);
  }

  lemma StepKeepsInv(s: System, ev: Event)
    requires Inv(s)
    ensures Inv(Next(s, ev))
  {
    match ev
    case Reconcile(l, e, x) =>
      if l in s.leases && !s.leases[l].deleting && l !in s.pending {
        ReconcileKeepsInv(s, l, e, x);
      }
    case Cleanup(l, x) =>
      if l in s.leases && s.leases[l].deleting && l !in s.pending {
        CleanupKeepsInv(s, l, x);
      }
    case Write(l, apiOk) =>
      if l in s.pending {
        WriteKeepsInv(s, l, apiOk);
      }
    case ControllerCrash => RestartsKeepInv(s);
    case RuntimeRestart => RestartsKeepInv(s);
    case _ => LeaseObjectKeepsInv(s, ev);
  }

  // ---- Every run ----

  lemma {:induction false} Reachable(trace: seq<System>, events: seq<Event>, n: nat)
    requires IsRun(trace, events) && n <= |events|
    ensures Inv(trace[n])
  {
    if n > 0 {
      Reachable(trace, events, n - 1);
      assert StepAt(trace, events, n - 1);
      StepKeepsInv(trace[n - 1], events[n - 1]);
    }
  }

  /** SingleActive, in every run: each persisted lease's rules and remembered
      state follow its persisted generation and Pod. */
  lemma SingleActive(trace: seq<System>, events: seq<Event>, n: nat, l: Uid)
    requires IsRun(trace, events) && n <= |events| && l in trace[n].leases
    ensures RulesFollow(trace[n].runtime, l, trace[n].leases[l].status)
    ensures MemoryFollows(trace[n].runtime, l, trace[n].leases[l].status)
  {
    Reachable(trace, events, n);
    assert LeaseInv(trace[n], l);
  }

  /** A cleanup pass that lets the lease go because its deadline has passed, its
      withdrawal unconfirmed. */
  ghost predicate Forces(s: System, ev: Event, l: Uid) {
    ev.Cleanup? && ev.l == l && l in s.leases && ev.cleanup.deadlinePassed && ev.cleanup.quarantineOk
      && !CleanupConfirmed(s, l, ev.cleanup)
  }

  lemma StepForces(s: System, ev: Event, l: Uid)
    ensures var next := Next(s, ev);
            l in next.forced || (l in next.pending && next.pending[l] == RemoveFinalizer(false)) ==>
              l in s.forced || (l in s.pending && s.pending[l] == RemoveFinalizer(false)) || Forces(s, ev, l)
  {
  }

  lemma {:induction false} ForcedPastDeadline(trace: seq<System>, events: seq<Event>, n: nat, l: Uid)
    requires IsRun(trace, events) && n <= |events|
    requires l in trace[n].forced || (l in trace[n].pending && trace[n].pending[l] == RemoveFinalizer(false))
    ensures exists k :: 0 <= k < n && Forces(trace[k], events[k], l)
  {
    if n > 0 {
      assert StepAt(trace, events, n - 1);
      StepForces(trace[n - 1], events[n - 1], l);
      if !Forces(trace[n - 1], events[n - 1], l) {
        ForcedPastDeadline(trace, events, n - 1, l);
      }
    }
  }

  /** Every rule of every run is accounted for: it carries its persisted lease's
      generation and Pod, or its lease was let go past the cleanup deadline without a
      confirmed withdrawal. */
  lemma EveryRuleAccounted(trace: seq<System>, events: seq<Event>, n: nat, r: GatewayRule)
    requires IsRun(trace, events) && n <= |events| && r in trace[n].runtime.installed
    ensures var s := trace[n];
            || (&& r.leaseUid in s.leases && s.leases[r.leaseUid].status.endpoint.Some?
                && r.generation == s.leases[r.leaseUid].status.generation
                && r.podUid == s.leases[r.leaseUid].status.endpoint.value.podUid)
            || exists k :: 0 <= k < n && Forces(trace[k], events[k], r.leaseUid)
  {
    Reachable(trace, events, n);
    if r.leaseUid in trace[n].leases {
      assert LeaseInv(trace[n], r.leaseUid);
    } else {
      assert r.leaseUid in trace[n].retired && !Cleared(trace[n].runtime, r.leaseUid);
      ForcedPastDeadline(trace, events, n, r.leaseUid);
    }
  }

  /** No single step moves the traffic of a lease from one target to another. */
  lemma StepCannotSwitch(s: System, ev: Event, r: GatewayRule, t: GatewayRule)
    requires Inv(s) && r in s.runtime.installed && t in Next(s, ev).runtime.installed && r.leaseUid == t.leaseUid
    requires r.leaseUid in Next(s, ev).leases
    ensures r.leaseUid in s.leases && r.generation == t.generation && r.podUid == t.podUid
  {
    StepKeepsInv(s, ev);
    RulePersisted(Next(s, ev), t);
    RuleWasKnown(s, ev, r);
    RulePersisted(s, r);
    StepAdvances(s, ev, r.leaseUid);
  }

  lemma RulePersisted(s: System, r: GatewayRule)
    requires Inv(s) && r in s.runtime.installed && r.leaseUid in s.leases
    ensures var status := s.leases[r.leaseUid].status;
            && status.endpoint.Some?
            && r.generation == status.generation && r.podUid == status.endpoint.value.podUid
  {
    assert LeaseInv(s, r.leaseUid);
  }

  lemma RuleWasKnown(s: System, ev: Event, r: GatewayRule)
    requires Inv(s) && r in s.runtime.installed && r.leaseUid in Next(s, ev).leases
    ensures r.leaseUid in s.leases
  {
  }

  lemma RunCannotSwitch(trace: seq<System>, events: seq<Event>, k: nat, r: GatewayRule, t: GatewayRule)
    requires IsRun(trace, events) && k < |events|
    requires r in trace[k].runtime.installed && t in trace[k + 1].runtime.installed && r.leaseUid == t.leaseUid
    requires r.leaseUid in trace[k + 1].leases
    ensures r.leaseUid in trace[k].leases && r.generation == t.generation && r.podUid == t.podUid
  {
    Reachable(trace, events, k);
    assert StepAt(trace, events, k);
    StepCannotSwitch(trace[k], events[k], r, t);
  }

  /** Break before make: traffic of a live lease moves to another Pod or
      generation only through a moment with no rule for it at all. */
  lemma {:induction false} BreakBeforeMake(
    trace: seq<System>, events: seq<Event>, i: nat, n: nat, r: GatewayRule, t: GatewayRule)
    requires IsRun(trace, events) && i <= n <= |events|
    requires r in trace[i].runtime.installed && t in trace[n].runtime.installed && r.leaseUid == t.leaseUid
    requires r.leaseUid in trace[n].leases && (r.podUid != t.podUid || r.generation != t.generation)
    ensures exists k :: i < k < n && NoRule(trace[k].runtime, r.leaseUid)
  {
    if i == n {
      SingleActive(trace, events, n, r.leaseUid);
    } else if !NoRule(trace[n - 1].runtime, r.leaseUid) {
      var u :| u in trace[n - 1].runtime.installed && u.leaseUid == r.leaseUid;
      RunCannotSwitch(trace, events, n - 1, u, t);
      BreakBeforeMake(trace, events, i, n - 1, r, u);
    }
  }

  /** How one step may change a persisted status. */
  predicate Advances(a: Status, b: Status) {
    && a.generation <= b.generation
    && (a.generation == b.generation ==> b.endpoint.None? || SameTarget(a.endpoint, b.endpoint))
  }

  lemma StepAdvances(s: System, ev: Event, l: Uid)
    requires Inv(s) && l in s.leases && l in Next(s, ev).leases
    ensures Advances(s.leases[l].status, Next(s, ev).leases[l].status)
  {
  }

  lemma StepStaysRetired(s: System, ev: Event, l: Uid)
    requires Inv(s) && (l in s.leases || l in s.retired)
    ensures l in Next(s, ev).leases || l in Next(s, ev).retired
    ensures l in s.retired ==> l !in Next(s, ev).leases
  {
  }

  /** A lease that was seen is still persisted or retired for good. */
  lemma {:induction false} StillThere(trace: seq<System>, events: seq<Event>, l: Uid, i: nat, n: nat)
    requires IsRun(trace, events) && i <= n <= |events| && l in trace[i].leases
    ensures l in trace[n].leases || l in trace[n].retired
    ensures i < n && l in trace[n].leases ==> l in trace[n - 1].leases
  {
    if i < n {
      StillThere(trace, events, l, i, n - 1);
      Reachable(trace, events, n - 1);
      assert StepAt(trace, events, n - 1);
      StepStaysRetired(trace[n - 1], events[n - 1], l);
    }
  }

  /** A persisted generation never goes down, and names one Pod for ever. */
  lemma {:induction false} GenerationNamesOnePod(trace: seq<System>, events: seq<Event>, l: Uid, i: nat, n: nat)
    requires IsRun(trace, events) && i <= n <= |events| && l in trace[i].leases && l in trace[n].leases
    ensures Advances(trace[i].leases[l].status, trace[n].leases[l].status)
  {
    if i < n {
      StillThere(trace, events, l, i, n);
      GenerationNamesOnePod(trace, events, l, i, n - 1);
      Reachable(trace, events, n - 1);
      assert StepAt(trace, events, n - 1);
      StepAdvances(trace[n - 1], events[n - 1], l);
    }
  }

  /** The controller wants to report Ready only while the kernel holds the rule of
      exactly the reported generation and Pod. */
  lemma ReadyIsBacked(rt: Runtime, spec: Spec, status: Status, e: Evaluation, x: CallInputs)
    requires WellKeyed(rt) && RulesFollow(rt, spec.leaseUid, status) && MemoryFollows(rt, spec.leaseUid, status)
    ensures var out := RuntimeStatus(rt, spec, status, e, x);
            out.status.ready ==>
              && out.status.endpoint.Some? && out.status.endpoint.value.phase.Active?
              && exists r :: r in out.runtime.installed && r.leaseUid == spec.leaseUid
                   && r.generation == out.status.generation
                             && r.podUid == out.status.endpoint.value.podUid
  {
    StatusCall(rt, spec, status, e, x);
    var out := RuntimeStatus(rt, spec, status, e, x);
    if out.status.ready {
      assert status.endpoint.Some? && out == Served(rt, spec, status, e, x);
      var intent := IntentFor(spec, status, e, x.providerPort);
      var step := Reconciled(rt, spec.gatewayUid, intent, x.reconcile);
      assert step.reply.observation.rulesReady;
    }
  }
}
