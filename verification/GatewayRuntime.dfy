/** The tokenless gateway runtime of internal/portforward/manager.go: an
    in-memory map of lease states and the kernel rule table it replaces as a
    whole. Every external call (provider, nftables, adapter, clock) is an input
    of the step that makes it, so a statement about all inputs covers every
    failure. */
module GatewayRuntime {
  import opened Common

  datatype Protocol = TCP | UDP | Unsupported

  datatype PortMode = Fixed | ProviderAssigned | UnknownMode

  /** Addresses are numbers; 0 is any value that is not an IPv4 address. */
  datatype Intent = Intent(
    leaseUid: Uid, gatewayUid: Uid, generation: int, serviceUid: Uid, sliceUid: Uid, podUid: Uid, bindingUid: Uid,
    providerInternalPort: nat, previousPublicPort: nat, overlayAddress: nat, applicationAddress: nat,
    backendPort: nat, targetPort: nat, protocols: seq<Protocol>, adapterName: Uid, portMode: PortMode)

  datatype Withdrawal = Withdrawal(
    leaseUid: Uid, gatewayUid: Uid, generation: int, podUid: Uid, endpointRetired: bool, releaseProvider: bool,
    providerInternalPort: nat, protocols: seq<Protocol>)

  datatype Mapping = Mapping(publicAddress: nat, publicPort: nat, expiresAt: int)

  datatype RuntimeState = RuntimeState(
    intent: Intent, mapping: Mapping, renewAfter: int, draining: bool, drained: bool, blocked: bool)

  /** A kernel rule. `podUid` names the Pod whose binding owns `overlayAddress`;
      the kernel does not see it. */
  datatype GatewayRule = GatewayRule(
    leaseUid: Uid, generation: int, ingressPort: nat, overlayAddress: nat, targetPort: nat,
    protocols: seq<Protocol>, podUid: Uid)

  datatype Observation = Observation(
    leaseUid: Uid, gatewayUid: Uid, generation: int, podUid: Uid, provider: Option<Mapping>,
    rulesReady: bool, delivered: bool, acknowledged: bool, withdrawn: bool)

  /** What a call answers: an error without an observation, or an observation
      that an error may accompany. */
  datatype Reply = Rejected | Answered(observation: Observation, failed: bool)

  const PROVIDER_PORT_FIRST := 49152
  const ZERO_TIME := 0

  // ---- Outcomes of the external calls ----

  datatype Capabilities = Capabilities(maxLeases: int, sharedPort: bool, protocols: set<Protocol>)

  datatype CapabilityReply = CapabilityError | CapabilityOk(capabilities: Capabilities)

  datatype EnsureReply = EnsureError | Ensured(mapping: Mapping, renewAfter: int)

  /** The table is replaced in one kernel transaction. A reported failure may
      still have committed it. */
  datatype TableWrite = Written | WriteFailed(applied: bool)

  /** Clock readings are separate inputs because each call reads the clock again. */
  datatype ReconcileInputs = ReconcileInputs(
    capability: CapabilityReply, capabilityNow: int, ensure: EnsureReply, now: int,
    rulesNow: int, write: TableWrite, observeOk: bool, delivered: bool, acknowledged: bool, deliveryFailed: bool)

  datatype WithdrawInputs = WithdrawInputs(
    rulesNow: int, write: TableWrite, observeOk: bool, deliveryOk: bool, deliveryWithdrawn: bool,
    providerAvailable: bool, releaseOk: bool)

  // ---- Pure helpers ----

  function NormalizedProtocols(protocols: seq<Protocol>): Option<seq<Protocol>> {
    if protocols == [TCP] || protocols == [UDP] then Some(protocols)
    else if protocols == [TCP, UDP] || protocols == [UDP, TCP] then Some([TCP, UDP])
    else None
  }

  predicate ValidIntent(gatewayUid: Uid, intent: Intent) {
    && gatewayUid != NO_UID && intent.gatewayUid == gatewayUid && intent.leaseUid != NO_UID && intent.generation >= 1
    && intent.serviceUid != NO_UID && intent.sliceUid != NO_UID && intent.podUid != NO_UID
    && intent.bindingUid != NO_UID
    && intent.providerInternalPort >= PROVIDER_PORT_FIRST && intent.backendPort != 0 && intent.targetPort != 0
    && intent.overlayAddress != 0 && intent.applicationAddress != 0 && !intent.portMode.UnknownMode?
    && NormalizedProtocols(intent.protocols).Some?
  }

  predicate ValidWithdrawal(gatewayUid: Uid, w: Withdrawal) {
    && gatewayUid != NO_UID && w.gatewayUid == gatewayUid && w.leaseUid != NO_UID && w.generation >= 1
    && w.podUid != NO_UID
    && (w.releaseProvider ==>
          w.providerInternalPort >= PROVIDER_PORT_FIRST && NormalizedProtocols(w.protocols).Some?)
  }

  predicate SameRuntimeTarget(a: Intent, b: Intent) {
    && a.leaseUid == b.leaseUid && a.gatewayUid == b.gatewayUid && a.serviceUid == b.serviceUid && a.podUid == b.podUid
    && a.bindingUid == b.bindingUid && a.providerInternalPort == b.providerInternalPort
    && a.overlayAddress == b.overlayAddress && a.applicationAddress == b.applicationAddress
    && a.backendPort == b.backendPort && a.targetPort == b.targetPort && a.portMode == b.portMode
    && NormalizedProtocols(a.protocols).Some? && NormalizedProtocols(a.protocols) == NormalizedProtocols(b.protocols)
    && a.adapterName == b.adapterName
  }

  function EffectiveTargetPort(s: RuntimeState): nat {
    if s.intent.portMode.ProviderAssigned? then s.mapping.publicPort else s.intent.targetPort
  }

  predicate Serving(s: RuntimeState, now: int) {
    !s.draining && !s.drained && !s.blocked && s.mapping.expiresAt > now
  }

  function RuleFor(s: RuntimeState): GatewayRule {
    GatewayRule(s.intent.leaseUid, s.intent.generation, s.mapping.publicPort, s.intent.overlayAddress,
                EffectiveTargetPort(s), s.intent.protocols, s.intent.podUid)
  }

  /** The rules the whole table is replaced with. */
  function RuleSet(states: map<Uid, RuntimeState>, now: int): set<GatewayRule> {
    set l | l in states && Serving(states[l], now) :: RuleFor(states[l])
  }

  predicate Keyed(states: map<Uid, RuntimeState>) {
    forall l :: l in states ==> states[l].intent.leaseUid == l
  }

  predicate Increasing(rules: seq<GatewayRule>) {
    forall i, j :: 0 <= i < j < |rules| ==> rules[i].leaseUid < rules[j].leaseUid
  }

  function Unexpired(states: map<Uid, RuntimeState>, now: int): set<Uid> {
    set l | l in states && states[l].mapping.expiresAt > now
  }

  /** validateProviderCapabilities; the capacity bound is applied only to a lease
      the runtime does not remember. */
  predicate Capable(c: Capabilities, intent: Intent, exists_: bool, states: map<Uid, RuntimeState>, now: int) {
    && c.maxLeases >= 1
    && (|intent.protocols| > 1 ==> c.sharedPort)
    && (forall p :: p in intent.protocols ==> p in c.protocols)
    && (!exists_ ==> |Unexpired(states, now)| < c.maxLeases)
  }

  predicate Admissible(previous: Intent, drained: bool, draining: bool, intent: Intent) {
    && intent.generation >= previous.generation
    && (intent.generation == previous.generation ==> SameRuntimeTarget(previous, intent) && (draining ==> drained))
    && (intent.generation > previous.generation ==> drained)
  }

  function TableAfter(table: set<GatewayRule>, wanted: set<GatewayRule>, write: TableWrite): set<GatewayRule> {
    if write.Written? || write.applied then wanted else table
  }

  predicate RuleReady(table: set<GatewayRule>, rule: GatewayRule) {
    exists r :: r in table && r.leaseUid == rule.leaseUid && r.generation == rule.generation
                && (forall p :: p in rule.protocols ==> p in r.protocols)
  }

  predicate RulesWithdrawn(table: set<GatewayRule>, leaseUid: Uid, generation: int) {
    forall r :: r in table ==> !(r.leaseUid == leaseUid && r.generation == generation)
  }

  // ---- The two calls, as functions of the remembered states and the table ----

  datatype Runtime = Runtime(states: map<Uid, RuntimeState>, installed: set<GatewayRule>)

  datatype Step = Step(runtime: Runtime, reply: Reply)

  function Observed(intent: Intent, mapping: Mapping): Observation {
    Observation(intent.leaseUid, intent.gatewayUid, intent.generation, intent.podUid, Some(mapping), false, false,
                false, false)
  }

  function WithdrawalObserved(w: Withdrawal, withdrawn: bool): Observation {
    Observation(w.leaseUid, w.gatewayUid, w.generation, w.podUid, None, false, false, false, withdrawn)
  }

  function Put(rt: Runtime, states: map<Uid, RuntimeState>, now: int, write: TableWrite): Runtime {
    Runtime(states, TableAfter(rt.installed, RuleSet(states, now), write))
  }

  /** The mapping to use, or None when the provider gave none and the remembered
      one has expired. */
  function Refreshed(states: map<Uid, RuntimeState>, l: Uid, x: ReconcileInputs): Option<(Mapping, int)> {
    if l in states && states[l].renewAfter != ZERO_TIME && x.now < states[l].renewAfter
       && x.now < states[l].mapping.expiresAt then
      Some((states[l].mapping, states[l].renewAfter))
    else if x.ensure.Ensured? && x.now < x.ensure.renewAfter < x.ensure.mapping.expiresAt then
      Some((x.ensure.mapping, x.ensure.renewAfter))
    else if l in states && x.now < states[l].mapping.expiresAt then
      Some((states[l].mapping, states[l].renewAfter))
    else
      None
  }

  /** Replaces the table with the new state in it, rolling the state back when
      the write is reported failed, then delivers. */
  function Programmed(rt: Runtime, state: RuntimeState, x: ReconcileInputs): Step {
    var put := Put(rt, rt.states[state.intent.leaseUid := state], x.rulesNow, x.write);
    var observation := Observed(state.intent, state.mapping);
    if x.write.WriteFailed? then
      Step(put.(states := rt.states), Answered(observation, true))
    else if !(x.observeOk && RuleReady(put.installed, RuleFor(state))) then
      Step(put, Answered(observation, !x.observeOk))
    else
      Step(put, Answered(observation.(rulesReady := true, delivered := x.delivered, acknowledged := x.acknowledged),
                         x.deliveryFailed))
  }

  function Reconciled(rt: Runtime, gatewayUid: Uid, intent: Intent, x: ReconcileInputs): Step {
    var l := intent.leaseUid;
    var known := l in rt.states;
    if !ValidIntent(gatewayUid, intent)
       || (known && !Admissible(rt.states[l].intent, rt.states[l].drained, rt.states[l].draining, intent))
       || (x.capability.CapabilityError? &&
           (!known || rt.states[l].blocked || rt.states[l].mapping.expiresAt <= x.capabilityNow)) then
      Step(rt, Rejected)
    else if x.capability.CapabilityOk?
      && !Capable(x.capability.capabilities, intent, known, rt.states, x.capabilityNow) then
      Step(if known then Put(rt, rt.states[l := rt.states[l].(blocked := true)], x.rulesNow, x.write) else rt, Rejected)
    else
      match Refreshed(rt.states, l, x)
      case None => Step(Put(rt, rt.states - {l}, x.rulesNow, x.write), Rejected)
      case Some((mapping, renewAfter)) =>
        Programmed(rt, RuntimeState(intent, mapping, renewAfter, false, false, false), x)
  }

  /** Marks the withdrawal complete and, when asked, releases the provider lease. */
  function Released(put: Runtime, w: Withdrawal, x: WithdrawInputs): Step {
    var l := w.leaseUid;
    var done :=
      if l in put.states then put.(states := put.states[l := put.states[l].(draining := false, drained := true)])
      else put;
    if !w.releaseProvider then
      Step(done, Answered(WithdrawalObserved(w, true), false))
    else if !(x.providerAvailable && x.releaseOk) then
      Step(done, Answered(WithdrawalObserved(w, false), true))
    else
      Step(done.(states := done.states - {l}), Answered(WithdrawalObserved(w, true), false))
  }

  function Withdrawn(rt: Runtime, gatewayUid: Uid, w: Withdrawal, x: WithdrawInputs): Step {
    var l := w.leaseUid;
    var known := l in rt.states;
    if !ValidWithdrawal(gatewayUid, w) || (known && rt.states[l].intent.generation != w.generation) then
      Step(rt, Rejected)
    else
      var draining :=
        if known && !rt.states[l].drained then rt.states[l := rt.states[l].(draining := true)] else rt.states;
      var put := Put(rt, draining, x.rulesNow, x.write);
      var refused := WithdrawalObserved(w, false);
      if x.write.WriteFailed? then
        Step(if known then put.(states := rt.states[l := rt.states[l].(draining := false)]) else put,
             Answered(refused, true))
      else if !(x.observeOk && RulesWithdrawn(put.installed, l, w.generation)) then
        Step(put, Answered(refused, !x.observeOk))
      else if !(x.deliveryOk && x.deliveryWithdrawn) then
        Step(put, Answered(refused, !x.deliveryOk))
      else
        Released(put, w, x)
  }

  // ---- The runtime itself ----

  class GatewayRuntimeManager {
    const gatewayUid: Uid
    var states: map<Uid, RuntimeState>
    var installed: set<GatewayRule>

    /** A started process remembers nothing, whatever the kernel still holds. */
    constructor (gatewayUid: Uid, kernel: set<GatewayRule>)
      ensures this.gatewayUid == gatewayUid && View() == Runtime(map[], kernel)
    {
      this.gatewayUid := gatewayUid;
      states := map[];
      installed := kernel;
    }

    ghost function View(): Runtime
      reads this
    {
      Runtime(states, installed)
    }

    /** Put a rule in its place by lease UID. */
    static method Insert(rules: seq<GatewayRule>, rule: GatewayRule) returns (longer: seq<GatewayRule>)
      ensures (set r | r in longer) == (set r | r in rules) + {rule}
      ensures Increasing(rules) && (forall r :: r in rules ==> r.leaseUid != rule.leaseUid) ==> Increasing(longer)
    {
      var i := 0;
      while i < |rules| && rules[i].leaseUid < rule.leaseUid
        invariant i <= |rules| && forall j :: 0 <= j < i ==> rules[j].leaseUid < rule.leaseUid
      {
        i := i + 1;
      }
      longer := rules[..i] + [rule] + rules[i..];
      assert rules == rules[..i] + rules[i..];
    }

    /** The rules of the serving states, one for each and in order of lease UID. */
    method CurrentRules(now: int) returns (rules: seq<GatewayRule>)
      ensures (set r | r in rules) == RuleSet(states, now)
      ensures Keyed(states) ==> Increasing(rules)
    {
      rules := [];
      var pending := states.Keys;
      while pending != {}
        invariant pending <= states.Keys
        invariant forall r :: r in rules ==>
                  exists l :: l in states.Keys - pending && Serving(states[l], now) && r == RuleFor(states[l])
        invariant forall l :: l in states.Keys - pending && Serving(states[l], now) ==> RuleFor(states[l]) in rules
        invariant Keyed(states) ==> Increasing(rules)
        decreases |pending|
      {
        var l :| l in pending;
        pending := pending - {l};
        if Serving(states[l], now) {
          var longer := Insert(rules, RuleFor(states[l]));
          assert forall r :: r in longer <==> r in (set q | q in rules) + {RuleFor(states[l])};
          rules := longer;
        }
      }
    }

    method ActiveMappings(now: int) returns (active: nat)
      ensures active == |Unexpired(states, now)|
    {
      active := 0;
      var pending := states.Keys;
      ghost var counted: set<Uid> := {};
      while pending != {}
        invariant pending <= states.Keys
        invariant counted == set l | l in states.Keys - pending && states[l].mapping.expiresAt > now
        invariant active == |counted|
        decreases |pending|
      {
        var l :| l in pending;
        pending := pending - {l};
        if states[l].mapping.expiresAt > now {
          active := active + 1;
          counted := counted + {l};
        }
      }
      assert counted == Unexpired(states, now);
    }

    method ReplaceTable(now: int, write: TableWrite) returns (ok: bool)
      modifies this`installed
      ensures ok == write.Written?
      ensures installed == TableAfter(old(installed), RuleSet(states, now), write)
    {
      var rules := CurrentRules(now);
      if write.Written? || write.applied {
        installed := set r | r in rules;
      }
      ok := write.Written?;
    }

    method ValidateCapabilities(c: Capabilities, intent: Intent, known: bool, now: int) returns (ok: bool)
      ensures ok == Capable(c, intent, known, states, now)
    {
      if c.maxLeases < 1 || (|intent.protocols| > 1 && !c.sharedPort) {
        return false;
      }
      for i := 0 to |intent.protocols|
        invariant forall j :: 0 <= j < i ==> intent.protocols[j] in c.protocols
      {
        if intent.protocols[i] !in c.protocols {
          return false;
        }
      }
      if !known {
        var active := ActiveMappings(now);
        return active < c.maxLeases;
      }
      return true;
    }

    /** The generation guards of a known lease. */
    method Admit(intent: Intent) returns (ok: bool)
      requires intent.leaseUid in states
      ensures ok == var p := states[intent.leaseUid]; Admissible(p.intent, p.drained, p.draining, intent)
    {
      var previous := states[intent.leaseUid];
      if intent.generation < previous.intent.generation {
        return false;
      }
      if intent.generation == previous.intent.generation && !SameRuntimeTarget(previous.intent, intent) {
        return false;
      }
      if intent.generation == previous.intent.generation && previous.draining && !previous.drained {
        return false;
      }
      return intent.generation == previous.intent.generation || previous.drained;
    }

    method ChooseMapping(l: Uid, x: ReconcileInputs) returns (chosen: Option<(Mapping, int)>)
      ensures chosen == Refreshed(states, l, x)
    {
      var known := l in states;
      var due := !known || states[l].renewAfter == ZERO_TIME || x.now >= states[l].renewAfter
        || states[l].mapping.expiresAt <= x.now;
      if !due {
        return Some((states[l].mapping, states[l].renewAfter));
      }
      if x.ensure.Ensured? && x.now < x.ensure.renewAfter && x.ensure.renewAfter < x.ensure.mapping.expiresAt {
        return Some((x.ensure.mapping, x.ensure.renewAfter));
      }
      if known && states[l].mapping.expiresAt > x.now {
        return Some((states[l].mapping, states[l].renewAfter));
      }
      return None;
    }

    method Program(state: RuntimeState, x: ReconcileInputs) returns (reply: Reply)
      modifies this
      ensures Step(View(), reply) == Programmed(old(View()), state, x)
    {
      var l := state.intent.leaseUid;
      var before := states;
      states := states[l := state];
      var ok := ReplaceTable(x.rulesNow, x.write);
      if !ok {
        if l in before {
          states := states[l := before[l]];
        } else {
          states := states - {l};
        }
        assert states == before;
        return Answered(Observed(state.intent, state.mapping), true);
      }
      if !x.observeOk {
        return Answered(Observed(state.intent, state.mapping), true);
      }
      if !RuleReady(installed, RuleFor(state)) {
        return Answered(Observed(state.intent, state.mapping), false);
      }
      reply := Answered(
        Observed(state.intent, state.mapping).(rulesReady := true, delivered := x.delivered,
                                               acknowledged := x.acknowledged),
        x.deliveryFailed);
    }

    method Reconcile(intent: Intent, x: ReconcileInputs) returns (reply: Reply)
      modifies this
      ensures Step(View(), reply) == Reconciled(old(View()), gatewayUid, intent, x)
    {
      if !ValidIntent(gatewayUid, intent) {
        return Rejected;
      }
      var l := intent.leaseUid;
      var known := l in states;
      if known {
        var admitted := Admit(intent);
        if !admitted {
          return Rejected;
        }
      }
      if x.capability.CapabilityError? {
        if !known || states[l].blocked || states[l].mapping.expiresAt <= x.capabilityNow {
          return Rejected;
        }
      } else {
        var capable := ValidateCapabilities(x.capability.capabilities, intent, known, x.capabilityNow);
        if !capable {
          if known {
            states := states[l := states[l].(blocked := true)];
            var _ := ReplaceTable(x.rulesNow, x.write);
          }
          return Rejected;
        }
      }
      var chosen := ChooseMapping(l, x);
      if chosen.None? {
        states := states - {l};
        var _ := ReplaceTable(x.rulesNow, x.write);
        return Rejected;
      }
      reply := Program(RuntimeState(intent, chosen.value.0, chosen.value.1, false, false, false), x);
    }

    /** The steps after the rules are observed gone. */
    method Finish(w: Withdrawal, x: WithdrawInputs) returns (reply: Reply)
      modifies this`states
      ensures Step(View(), reply) == Released(old(View()), w, x)
    {
      var l := w.leaseUid;
      if l in states {
        states := states[l := states[l].(draining := false, drained := true)];
      }
      if w.releaseProvider {
        if !x.providerAvailable || !x.releaseOk {
          return Answered(WithdrawalObserved(w, false), true);
        }
        states := states - {l};
      }
      reply := Answered(WithdrawalObserved(w, true), false);
    }

    method Withdraw(w: Withdrawal, x: WithdrawInputs) returns (reply: Reply)
      modifies this
      ensures Step(View(), reply) == Withdrawn(old(View()), gatewayUid, w, x)
    {
      var l := w.leaseUid;
      var known := l in states;
      if !ValidWithdrawal(gatewayUid, w) || (known && states[l].intent.generation != w.generation) {
        return Rejected;
      }
      ghost var before := states;
      if known && !states[l].draining && !states[l].drained {
        states := states[l := states[l].(draining := true)];
      }
      assert states == if known && !before[l].drained then before[l := before[l].(draining := true)] else before;
      var ok := ReplaceTable(x.rulesNow, x.write);
      if !ok {
        if known {
          states := states[l := states[l].(draining := false)];
          assert states == before[l := before[l].(draining := false)];
        }
        return Answered(WithdrawalObserved(w, false), true);
      }
      if !x.observeOk || !RulesWithdrawn(installed, l, w.generation) {
        return Answered(WithdrawalObserved(w, false), !x.observeOk);
      }
      if !x.deliveryOk || !x.deliveryWithdrawn {
        return Answered(WithdrawalObserved(w, false), !x.deliveryOk);
      }
      reply := Finish(w, x);
    }
  }
}
