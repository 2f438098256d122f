/** What the gateway runtime keeps over every sequence of calls, with every
    outcome of its backends and restarts at any point. */
module GatewayRuntimeRuns {
  import opened Common
  import opened GatewayRuntime

  datatype Call =
    | ReconcileCall(intent: Intent, reconcileInputs: ReconcileInputs)
    | WithdrawCall(withdrawal: Withdrawal, withdrawInputs: WithdrawInputs)
    | Restart

  function Do(gatewayUid: Uid, rt: Runtime, call: Call): Step {
    match call
    case ReconcileCall(intent, x) => Reconciled(rt, gatewayUid, intent, x)
    case WithdrawCall(w, x) => Withdrawn(rt, gatewayUid, w, x)
    case Restart => Step(rt.(states := map[]), Rejected)
  }

  ghost predicate IsRun(gatewayUid: Uid, trace: seq<Runtime>, calls: seq<Call>) {
    && |trace| == |calls| + 1
    && forall i :: 0 <= i < |calls| ==> trace[i + 1] == Do(gatewayUid, trace[i], calls[i]).runtime
  }

  predicate Reconciles(call: Call, l: Uid) {
    call.ReconcileCall? && call.intent.leaseUid == l
  }

  predicate HasRule(table: set<GatewayRule>, l: Uid) {
    exists r :: r in table && r.leaseUid == l
  }

  // ---- One rule per lease ----

  ghost predicate WellFormed(rt: Runtime) {
    && (forall l :: l in rt.states ==> rt.states[l].intent.leaseUid == l)
    && (forall r, s :: r in rt.installed && s in rt.installed && r.leaseUid == s.leaseUid ==> r == s)
  }

  lemma PutWellFormed(rt: Runtime, states: map<Uid, RuntimeState>, now: int, write: TableWrite)
    requires WellFormed(rt)
    requires forall l :: l in states ==> states[l].intent.leaseUid == l
    ensures WellFormed(Put(rt, states, now, write))
  {
  }

  lemma StepWellFormed(gatewayUid: Uid, rt: Runtime, call: Call)
    requires WellFormed(rt)
    ensures WellFormed(Do(gatewayUid, rt, call).runtime)
  {
    match call
    case ReconcileCall(intent, x) =>
      var l := intent.leaseUid;
      if l in rt.states {
        PutWellFormed(rt, rt.states[l := rt.states[l].(blocked := true)], x.rulesNow, x.write);
      }
      PutWellFormed(rt, rt.states - {l}, x.rulesNow, x.write);
      var mapped := Refreshed(rt.states, l, x);
      if mapped.Some? {
        PutWellFormed(rt, rt.states[l := RuntimeState(intent, mapped.value.0, mapped.value.1, false, false, false)],
                      x.rulesNow, x.write);
      }
    case WithdrawCall(w, x) =>
      var l := w.leaseUid;
      PutWellFormed(rt, rt.states, x.rulesNow, x.write);
      if l in rt.states {
        PutWellFormed(rt, rt.states[l := rt.states[l].(draining := true)], x.rulesNow, x.write);
      }
    case Restart =>
  }

  /** In every run the kernel holds at most one rule for each lease. */
  lemma {:induction false} AtMostOneRulePerLease(gatewayUid: Uid, trace: seq<Runtime>, calls: seq<Call>, n: nat)
    requires IsRun(gatewayUid, trace, calls) && WellFormed(trace[0]) && n <= |calls|
    ensures WellFormed(trace[n])
  {
    if n > 0 {
      AtMostOneRulePerLease(gatewayUid, trace, calls, n - 1);
      StepWellFormed(gatewayUid, trace[n - 1], calls[n - 1]);
    }
  }

  // ---- A confirmed withdrawal lasts ----

  /** Nothing in memory can put a rule for l back. */
  ghost predicate Retired(rt: Runtime, l: Uid) {
    !HasRule(rt.installed, l) && (l in rt.states ==> rt.states[l].drained)
  }

  predicate ConfirmedWithdrawal(gatewayUid: Uid, rt: Runtime, call: Call, l: Uid) {
    && call.WithdrawCall? && call.withdrawal.leaseUid == l
    && var reply := Do(gatewayUid, rt, call).reply; reply.Answered? && reply.observation.withdrawn
  }

  lemma WithdrawRetires(gatewayUid: Uid, rt: Runtime, call: Call, l: Uid)
    requires WellFormed(rt) && ConfirmedWithdrawal(gatewayUid, rt, call, l)
    ensures Retired(Do(gatewayUid, rt, call).runtime, l)
  {
  }

  lemma StepKeepsRetired(gatewayUid: Uid, rt: Runtime, call: Call, l: Uid)
    requires WellFormed(rt) && Retired(rt, l) && !Reconciles(call, l)
    ensures Retired(Do(gatewayUid, rt, call).runtime, l)
  {
    match call
    case ReconcileCall(intent, x) =>
      var k := intent.leaseUid;
      PutKeepsRetired(rt, rt.states - {k}, l, x.rulesNow, x.write);
      if k in rt.states {
        PutKeepsRetired(rt, rt.states[k := rt.states[k].(blocked := true)], l, x.rulesNow, x.write);
      }
      var mapped := Refreshed(rt.states, k, x);
      if mapped.Some? {
        var state := RuntimeState(intent, mapped.value.0, mapped.value.1, false, false, false);
        PutKeepsRetired(rt, rt.states[k := state], l, x.rulesNow, x.write);
      }
    case WithdrawCall(w, x) => WithdrawKeepsRetired(gatewayUid, rt, w, x, l);
    case Restart =>
  }

  lemma PutKeepsRetired(rt: Runtime, states: map<Uid, RuntimeState>, l: Uid, now: int, write: TableWrite)
    requires Retired(rt, l) && forall k :: k in states ==> states[k].intent.leaseUid == k
    requires l in states ==> states[l].drained
    ensures Retired(Put(rt, states, now, write), l)
  {
  }

  lemma WithdrawKeepsRetired(gatewayUid: Uid, rt: Runtime, w: Withdrawal, x: WithdrawInputs, l: Uid)
    requires WellFormed(rt) && Retired(rt, l)
    ensures Retired(Withdrawn(rt, gatewayUid, w, x).runtime, l)
  {
    var k := w.leaseUid;
    PutKeepsRetired(rt, rt.states, l, x.rulesNow, x.write);
    if k in rt.states && !rt.states[k].drained {
      PutKeepsRetired(rt, rt.states[k := rt.states[k].(draining := true)], l, x.rulesNow, x.write);
    }
  }

  /** Once a withdrawal is confirmed there is no rule for the lease until a
      later Reconcile for that same lease, whatever else runs or restarts. */
  lemma {:induction false} WithdrawnStaysWithdrawn(
    gatewayUid: Uid, trace: seq<Runtime>, calls: seq<Call>, l: Uid, i: nat, n: nat)
    requires IsRun(gatewayUid, trace, calls) && WellFormed(trace[0]) && i < n <= |calls|
    requires ConfirmedWithdrawal(gatewayUid, trace[i], calls[i], l)
    requires forall k :: i < k < n ==> !Reconciles(calls[k], l)
    ensures Retired(trace[n], l)
  {
    if n == i + 1 {
      AtMostOneRulePerLease(gatewayUid, trace, calls, i);
      WithdrawRetires(gatewayUid, trace[i], calls[i], l);
    } else {
      WithdrawnStaysWithdrawn(gatewayUid, trace, calls, l, i, n - 1);
      AtMostOneRulePerLease(gatewayUid, trace, calls, n - 1);
      StepKeepsRetired(gatewayUid, trace[n - 1], calls[n - 1], l);
    }
  }

  // ---- Generations only rise, and only across a withdrawal ----

  /** The runtime remembers l, and the kernel rule for l, if any, is of the
      remembered generation and not of a drained one. */
  ghost predicate Remembers(rt: Runtime, l: Uid) {
    && l in rt.states
    && forall r :: r in rt.installed && r.leaseUid == l ==>
         r.generation == rt.states[l].intent.generation && !rt.states[l].drained
  }

  /** The Reconcile of a known lease passes its checks and reaches the mapping. */
  predicate Admitted(gatewayUid: Uid, rt: Runtime, intent: Intent, x: ReconcileInputs)
    requires intent.leaseUid in rt.states
  {
    var s := rt.states[intent.leaseUid];
    && ValidIntent(gatewayUid, intent) && Admissible(s.intent, s.drained, s.draining, intent)
    && (x.capability.CapabilityError? ==> !s.blocked && s.mapping.expiresAt > x.capabilityNow)
    && (x.capability.CapabilityOk? ==> Capable(x.capability.capabilities, intent, true, rt.states, x.capabilityNow))
  }

  /** An admitted Reconcile whose mapping has expired drops the state, and one whose
      write is reported failed but was committed shows a rule that the memory, put
      back, does not explain. */
  predicate ReconcileForgets(gatewayUid: Uid, rt: Runtime, intent: Intent, x: ReconcileInputs)
    requires intent.leaseUid in rt.states
  {
    var s := rt.states[intent.leaseUid];
    && Admitted(gatewayUid, rt, intent, x)
    && match Refreshed(rt.states, intent.leaseUid, x)
       case None => true
       case Some((mapping, _)) =>
         x.write == WriteFailed(true) && mapping.expiresAt > x.rulesNow
           && (intent.generation != s.intent.generation || s.drained)
  }

  /** A completed withdrawal that releases the provider lease either drops the state or,
      the release failing, drains it without confirming so. */
  predicate WithdrawForgets(gatewayUid: Uid, rt: Runtime, w: Withdrawal, x: WithdrawInputs)
    requires w.leaseUid in rt.states
  {
    var s := rt.states[w.leaseUid];
    && ValidWithdrawal(gatewayUid, w) && w.generation == s.intent.generation && w.releaseProvider
    && x.write.Written? && x.observeOk && x.deliveryOk && x.deliveryWithdrawn
    && (!s.drained || (x.providerAvailable && x.releaseOk))
  }

  /** The calls after which the runtime knows less about l than it should. */
  predicate Forgets(gatewayUid: Uid, rt: Runtime, call: Call, l: Uid) {
    l in rt.states ==>
      match call
      case ReconcileCall(intent, x) => intent.leaseUid == l && ReconcileForgets(gatewayUid, rt, intent, x)
      case WithdrawCall(w, x) => w.leaseUid == l && WithdrawForgets(gatewayUid, rt, w, x)
      case Restart => true
  }

  function Generation(rt: Runtime, l: Uid): int
    requires l in rt.states
  {
    rt.states[l].intent.generation
  }

  /** A table write shows the old rules or those of the given states. */
  lemma PutShows(rt: Runtime, states: map<Uid, RuntimeState>, now: int, write: TableWrite, r: GatewayRule)
    requires (forall l :: l in states ==> states[l].intent.leaseUid == l) && r in Put(rt, states, now, write).installed
    ensures || (r in rt.installed && write == WriteFailed(false))
            || (r.leaseUid in states && Serving(states[r.leaseUid], now) && r == RuleFor(states[r.leaseUid])
                && write != WriteFailed(false))
  {
  }

  /** Writing a table whose states remember l keeps l remembered. */
  lemma PutRemembers(rt: Runtime, states: map<Uid, RuntimeState>, now: int, write: TableWrite, l: Uid)
    requires WellFormed(rt) && Remembers(rt, l)
    requires (forall k :: k in states ==> states[k].intent.leaseUid == k) && l in states
    requires states[l].intent.generation == Generation(rt, l) && states[l].drained == rt.states[l].drained
    ensures Remembers(Put(rt, states, now, write), l)
  {
    forall r | r in Put(rt, states, now, write).installed && r.leaseUid == l
      ensures r.generation == Generation(rt, l) && !states[l].drained
    {
      PutShows(rt, states, now, write, r);
    }
  }

  ghost predicate Moves(gatewayUid: Uid, rt: Runtime, call: Call, l: Uid)
    requires l in rt.states
  {
    var next := Do(gatewayUid, rt, call).runtime;
    && Remembers(next, l)
    && Generation(rt, l) <= Generation(next, l)
    && (Generation(rt, l) < Generation(next, l) ==> rt.states[l].drained)
    && (Generation(rt, l) == Generation(next, l) && next.states[l].drained && !rt.states[l].drained ==>
          ConfirmedWithdrawal(gatewayUid, rt, call, l) && call.withdrawal.generation == Generation(rt, l))
  }

  lemma ReconcileMoves(gatewayUid: Uid, rt: Runtime, call: Call, l: Uid)
    requires WellFormed(rt) && Remembers(rt, l) && !Forgets(gatewayUid, rt, call, l) && call.ReconcileCall?
    ensures Moves(gatewayUid, rt, call, l)
  {
    var intent, x := call.intent, call.reconcileInputs;
    var k := intent.leaseUid;
    if k in rt.states {
      PutRemembers(rt, rt.states[k := rt.states[k].(blocked := true)], x.rulesNow, x.write, l);
    }
    var mapped := Refreshed(rt.states, k, x);
    if k != l {
      PutRemembers(rt, rt.states - {k}, x.rulesNow, x.write, l);
      if mapped.Some? {
        PutRemembers(rt, rt.states[k := RuntimeState(intent, mapped.value.0, mapped.value.1, false, false, false)],
                     x.rulesNow, x.write, l);
      }
    } else if mapped.Some? {
      var states := rt.states[l := RuntimeState(intent, mapped.value.0, mapped.value.1, false, false, false)];
      forall r | r in Put(rt, states, x.rulesNow, x.write).installed && r.leaseUid == l
        ensures (r in rt.installed && x.write == WriteFailed(false))
                || (r.generation == intent.generation && mapped.value.0.expiresAt > x.rulesNow)
      {
        PutShows(rt, states, x.rulesNow, x.write, r);
      }
    }
  }

  lemma WithdrawMoves(gatewayUid: Uid, rt: Runtime, call: Call, l: Uid)
    requires WellFormed(rt) && Remembers(rt, l) && !Forgets(gatewayUid, rt, call, l) && call.WithdrawCall?
    ensures Moves(gatewayUid, rt, call, l)
  {
    var w, x := call.withdrawal, call.withdrawInputs;
    var k := w.leaseUid;
    var draining :=
      if k in rt.states && !rt.states[k].drained then rt.states[k := rt.states[k].(draining := true)] else rt.states;
    PutRemembers(rt, draining, x.rulesNow, x.write, l);
    if k == l && x.write.Written? {
      forall r | r in Put(rt, draining, x.rulesNow, x.write).installed ensures r.leaseUid != l {
        PutShows(rt, draining, x.rulesNow, x.write, r);
      }
    }
  }

  lemma ReconcileForgetsMeans(gatewayUid: Uid, rt: Runtime, call: Call, l: Uid)
    requires WellFormed(rt) && Remembers(rt, l) && call.ReconcileCall? && Forgets(gatewayUid, rt, call, l)
    ensures !Moves(gatewayUid, rt, call, l)
  {
    var intent, x := call.intent, call.reconcileInputs;
    var mapped := Refreshed(rt.states, l, x);
    if mapped.Some? {
      var states := rt.states[l := RuntimeState(intent, mapped.value.0, mapped.value.1, false, false, false)];
      ServingIsShown(states, l, x.rulesNow);
      assert RuleFor(states[l]) in Put(rt, states, x.rulesNow, x.write).installed;
    }
  }

  lemma WithdrawForgetsMeans(gatewayUid: Uid, rt: Runtime, call: Call, l: Uid)
    requires WellFormed(rt) && Remembers(rt, l) && call.WithdrawCall? && Forgets(gatewayUid, rt, call, l)
    ensures !Moves(gatewayUid, rt, call, l)
  {
    var x := call.withdrawInputs;
    var draining := if rt.states[l].drained then rt.states else rt.states[l := rt.states[l].(draining := true)];
    forall r | r in Put(rt, draining, x.rulesNow, x.write).installed ensures r.leaseUid != l {
      PutShows(rt, draining, x.rulesNow, x.write, r);
    }
  }

  /** One call keeps a remembered lease remembered, raises its generation only from a
      drained state and drains it only by a confirmed withdrawal, if and only if it
      forgets nothing. */
  lemma StepRemembers(gatewayUid: Uid, rt: Runtime, call: Call, l: Uid)
    requires WellFormed(rt) && Remembers(rt, l)
    ensures Moves(gatewayUid, rt, call, l) <==> !Forgets(gatewayUid, rt, call, l)
  {
    if call.ReconcileCall? {
      if Forgets(gatewayUid, rt, call, l) {
        ReconcileForgetsMeans(gatewayUid, rt, call, l);
      } else {
        ReconcileMoves(gatewayUid, rt, call, l);
      }
    } else if call.WithdrawCall? {
      if Forgets(gatewayUid, rt, call, l) {
        WithdrawForgetsMeans(gatewayUid, rt, call, l);
      } else {
        WithdrawMoves(gatewayUid, rt, call, l);
      }
    }
  }

  ghost predicate AllMove(gatewayUid: Uid, trace: seq<Runtime>, calls: seq<Call>, l: Uid, i: nat, n: nat)
    requires |trace| == |calls| + 1 && n <= |calls|
  {
    forall k :: i <= k < n ==> Remembers(trace[k], l) && Moves(gatewayUid, trace[k], calls[k], l)
  }

  ghost predicate NothingForgotten(gatewayUid: Uid, trace: seq<Runtime>, calls: seq<Call>, l: Uid, i: nat, n: nat)
    requires |trace| == |calls| + 1 && n <= |calls|
  {
    forall k :: i <= k < n ==> !Forgets(gatewayUid, trace[k], calls[k], l)
  }

  lemma RunStepRemembers(gatewayUid: Uid, trace: seq<Runtime>, calls: seq<Call>, l: Uid, k: nat)
    requires IsRun(gatewayUid, trace, calls) && WellFormed(trace[0]) && k < |calls| && Remembers(trace[k], l)
    ensures Moves(gatewayUid, trace[k], calls[k], l) <==> !Forgets(gatewayUid, trace[k], calls[k], l)
    ensures Moves(gatewayUid, trace[k], calls[k], l) ==> Remembers(trace[k + 1], l)
  {
    AtMostOneRulePerLease(gatewayUid, trace, calls, k);
    StepRemembers(gatewayUid, trace[k], calls[k], l);
  }

  /** Over a whole stretch of a run: every call moves the lease as it should if and only
      if none of them forgets. */
  lemma {:induction false} MovesExactly(gatewayUid: Uid, trace: seq<Runtime>, calls: seq<Call>, l: Uid, i: nat, n: nat)
    requires IsRun(gatewayUid, trace, calls) && WellFormed(trace[0]) && i <= n <= |calls| && Remembers(trace[i], l)
    ensures AllMove(gatewayUid, trace, calls, l, i, n) <==> NothingForgotten(gatewayUid, trace, calls, l, i, n)
    ensures NothingForgotten(gatewayUid, trace, calls, l, i, n) ==> Remembers(trace[n], l)
    decreases n - i
  {
    if i < n {
      RunStepRemembers(gatewayUid, trace, calls, l, i);
      if Moves(gatewayUid, trace[i], calls[i], l) {
        MovesExactly(gatewayUid, trace, calls, l, i + 1, n);
      }
    }
  }

  ghost predicate WithdrawnBetween(
    gatewayUid: Uid, trace: seq<Runtime>, calls: seq<Call>, l: Uid, generation: int, i: nat, n: nat)
    requires |trace| == |calls| + 1 && i <= n <= |calls|
  {
    exists k :: i <= k < n && ConfirmedWithdrawal(gatewayUid, trace[k], calls[k], l)
                && calls[k].withdrawal.generation == generation
  }

  /** From a point where the runtime remembers an undrained generation, that
      generation never goes down while nothing is forgotten, and leaving it takes
      a confirmed withdrawal of exactly that generation. */
  lemma {:induction false} GenerationsRise(
    gatewayUid: Uid, trace: seq<Runtime>, calls: seq<Call>, l: Uid, i: nat, n: nat)
    requires IsRun(gatewayUid, trace, calls) && WellFormed(trace[0]) && i <= n <= |calls|
    requires Remembers(trace[i], l) && !trace[i].states[l].drained
    requires NothingForgotten(gatewayUid, trace, calls, l, i, n)
    ensures Remembers(trace[n], l) && Generation(trace[i], l) <= Generation(trace[n], l)
    ensures Generation(trace[i], l) < Generation(trace[n], l) || trace[n].states[l].drained ==>
              WithdrawnBetween(gatewayUid, trace, calls, l, Generation(trace[i], l), i, n)
  {
    if n > i {
      GenerationsRise(gatewayUid, trace, calls, l, i, n - 1);
      AtMostOneRulePerLease(gatewayUid, trace, calls, n - 1);
      StepRemembers(gatewayUid, trace[n - 1], calls[n - 1], l);
      var g := Generation(trace[i], l);
      if WithdrawnBetween(gatewayUid, trace, calls, l, g, i, n - 1) {
        var k :| i <= k < n - 1 && ConfirmedWithdrawal(gatewayUid, trace[k], calls[k], l)
          && calls[k].withdrawal.generation == g;
      }
    }
  }

  /** A write reported failed but committed lets a generation fall: the rule of 2 is
      shown, the memory goes back to 1, and 1 is accepted again. */
  lemma CommittedFailureLowers()
    ensures var newer := Intent(1, 1, 2, 1, 1, 1, 1, PROVIDER_PORT_FIRST, 0, 1, 1, 1, 1, [TCP], NO_UID, Fixed);
            var older := newer.(generation := 1);
            var rt := Runtime(map[1 := RuntimeState(older, Mapping(1, 5, 100), 50, false, true, false)], {});
            var x := ReconcileInputs(CapabilityError, 0, EnsureError, 0, 0, WriteFailed(true), true, true, true, false);
            var shown := Do(1, rt, ReconcileCall(newer, x)).runtime;
            var fallen := Do(1, shown, ReconcileCall(older, x.(write := Written))).runtime;
            && WellFormed(rt) && Remembers(rt, 1)
            && (exists r :: r in shown.installed && r.leaseUid == 1 && r.generation == 2)
            && (exists r :: r in fallen.installed && r.leaseUid == 1 && r.generation == 1)
  {
    var newer := Intent(1, 1, 2, 1, 1, 1, 1, PROVIDER_PORT_FIRST, 0, 1, 1, 1, 1, [TCP], NO_UID, Fixed);
    var older := newer.(generation := 1);
    var m := Mapping(1, 5, 100);
    var drained := map[1 := RuntimeState(older, m, 50, false, true, false)];
    ServingIsShown(drained[1 := RuntimeState(newer, m, 50, false, false, false)], 1, 0);
    ServingIsShown(drained[1 := RuntimeState(older, m, 50, false, false, false)], 1, 0);
  }

  lemma ServingIsShown(states: map<Uid, RuntimeState>, l: Uid, now: int)
    requires l in states && Serving(states[l], now)
    ensures RuleFor(states[l]) in RuleSet(states, now)
  {
  }

  /** The same for the kernel table: two different generations seen in it are in
      order, and between them the older one was confirmed withdrawn. */
  lemma RulesChangeOnlyAcrossWithdrawal(
    gatewayUid: Uid, trace: seq<Runtime>, calls: seq<Call>, l: Uid, i: nat, n: nat, r: GatewayRule, s: GatewayRule)
    requires IsRun(gatewayUid, trace, calls) && WellFormed(trace[0]) && i <= n <= |calls|
    requires Remembers(trace[i], l) && NothingForgotten(gatewayUid, trace, calls, l, i, n)
    requires r in trace[i].installed && s in trace[n].installed && r.leaseUid == s.leaseUid == l
    requires r.generation != s.generation
    ensures r.generation < s.generation
    ensures WithdrawnBetween(gatewayUid, trace, calls, l, r.generation, i, n)
  {
    GenerationsRise(gatewayUid, trace, calls, l, i, n);
  }
}
