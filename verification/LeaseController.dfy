/** The lease controller of internal/portforward/controller.go: it persists a
    handoff generation and an active endpoint around the calls to the gateway
    runtime. */
module LeaseController {
  import opened Common
  import opened GatewayRuntime

  datatype Phase = Selecting | Draining | Active

  datatype Endpoint = Endpoint(serviceUid: Uid, sliceUid: Uid, podUid: Uid, phase: Phase)

  /** Why the persisted ResolvedRefs condition is false, where the controller
      later reads it back. */
  datatype RefsMark = AdapterUnavailable | BackendUnavailable | OtherMark

  datatype Status = Status(
    generation: int, endpoint: Option<Endpoint>, refs: RefsMark, publicPort: nat, rulesReady: bool, ready: bool)

  datatype Candidate = Candidate(
    serviceUid: Uid, sliceUid: Uid, podUid: Uid, bindingUid: Uid, overlayAddress: nat, applicationAddress: nat,
    targetPort: nat)

  /** What one reconcile observed of the gateway, the backend and the adapter. */
  datatype Evaluation = Evaluation(
    runtimeEligible: bool, gatewayReady: bool, hasSelected: bool, selected: Candidate, adapterRequired: bool,
    adapterReady: bool, backendSuspended: bool, providerAssigned: bool, refs: RefsMark)

  /** The immutable part of a lease. */
  datatype Spec = Spec(leaseUid: Uid, gatewayUid: Uid, protocols: seq<Protocol>, adapterName: Uid)

  /** Outcomes of one reconcile: the port reservation, the freshness of the
      answer, the validity of the reported mapping and the runtime's own inputs. */
  datatype CallInputs = CallInputs(
    portOk: bool, providerPort: nat, freshAnswer: bool, mappingUsable: bool,
    reconcile: ReconcileInputs, withdraw: WithdrawInputs)

  datatype DrainReason =
    | NoDrain | GatewayNotReady | AlreadyDraining | BackendObservationUnavailable | AdapterNotReady
    | BackendNotSelected | ServiceChanged | PodChanged

  function HandoffDrainReason(current: Option<Endpoint>, e: Evaluation): DrainReason {
    if current.None? then NoDrain
    else if !e.gatewayReady then GatewayNotReady
    else if current.value.phase.Draining? then AlreadyDraining
    else if e.backendSuspended then BackendObservationUnavailable
    else if e.hasSelected && e.adapterRequired && !e.adapterReady then AdapterNotReady
    else if !e.hasSelected then BackendNotSelected
    else if current.value.serviceUid != e.selected.serviceUid then ServiceChanged
    else if current.value.podUid != e.selected.podUid then PodChanged
    else NoDrain
  }

  predicate SuspensionInProgress(status: Status, e: Evaluation, mark: RefsMark) {
    && status.endpoint.Some? && status.endpoint.value.phase.Draining? && e.gatewayReady && e.hasSelected
    && (mark.AdapterUnavailable? ==> e.adapterRequired)
    && status.endpoint.value.serviceUid == e.selected.serviceUid && status.endpoint.value.podUid == e.selected.podUid
    && status.refs == mark
  }

  /** Whether the drain is a suspension that keeps the same target. */
  predicate PreservesIdentity(status: Status, e: Evaluation) {
    var reason := HandoffDrainReason(status.endpoint, e);
    || reason.AdapterNotReady? || reason.BackendObservationUnavailable?
    || (reason.AlreadyDraining? &&
        (SuspensionInProgress(status, e, AdapterUnavailable) || SuspensionInProgress(status, e, BackendUnavailable)))
  }

  function EndpointFor(c: Candidate, phase: Phase): Endpoint {
    Endpoint(c.serviceUid, c.sliceUid, c.podUid, phase)
  }

  function IntentFor(spec: Spec, status: Status, e: Evaluation, providerPort: nat): Intent {
    Intent(spec.leaseUid, spec.gatewayUid, status.generation,
           e.selected.serviceUid, e.selected.sliceUid, e.selected.podUid, e.selected.bindingUid,
           providerPort, status.publicPort, e.selected.overlayAddress, e.selected.applicationAddress,
           e.selected.targetPort, e.selected.targetPort, spec.protocols, spec.adapterName,
           if e.providerAssigned then ProviderAssigned else Fixed)
  }

  function WithdrawalFor(spec: Spec, status: Status, retired: bool, release: bool, providerPort: nat): Withdrawal {
    Withdrawal(spec.leaseUid, spec.gatewayUid, status.generation,
               if status.endpoint.Some? then status.endpoint.value.podUid else NO_UID,
               retired, release, providerPort, spec.protocols)
  }

  predicate ExactObservation(reply: Reply, intent: Intent) {
    && reply.Answered? && !reply.failed && reply.observation.leaseUid == intent.leaseUid
    && reply.observation.gatewayUid == intent.gatewayUid && reply.observation.generation == intent.generation
    && reply.observation.podUid == intent.podUid
  }

  predicate ExactWithdrawal(reply: Reply, w: Withdrawal) {
    && reply.Answered? && !reply.failed && reply.observation.leaseUid == w.leaseUid
    && reply.observation.gatewayUid == w.gatewayUid && reply.observation.generation == w.generation
    && reply.observation.podUid == w.podUid && reply.observation.withdrawn
  }

  /** applyObservation: the endpoint is Active only with a usable mapping and
      observed rules. */
  function ApplyObservation(spec: Spec, status: Status, o: Observation, usable: bool): Status
    requires status.endpoint.Some?
  {
    var mapped := usable && o.provider.Some?;
    var programmed := o.rulesReady && mapped;
    status.(
    publicPort := if mapped then o.provider.value.publicPort else status.publicPort,
    endpoint := Some(if programmed then status.endpoint.value.(phase := Active) else status.endpoint.value),
    rulesReady := programmed,
    ready := programmed && o.delivered && (spec.adapterName == NO_UID || o.acknowledged))
  }

  datatype Outcome = Outcome(runtime: Runtime, status: Status)

  function Blank(status: Status, e: Evaluation): Status {
    Status(status.generation, status.endpoint, e.refs, 0, false, false)
  }

  function Drained(rt: Runtime, spec: Spec, status: Status, e: Evaluation, x: CallInputs): Outcome
    requires status.endpoint.Some?
  {
    var draining := Blank(status, e).(endpoint := Some(status.endpoint.value.(phase := Draining)));
    if !x.portOk then Outcome(rt, draining)
    else
      var retired := e.hasSelected && e.selected.podUid != status.endpoint.value.podUid;
      var w := WithdrawalFor(spec, status, retired, false, x.providerPort);
      var step := Withdrawn(rt, spec.gatewayUid, w, x.withdraw);
      if !(ExactWithdrawal(step.reply, w) && x.freshAnswer) then Outcome(step.runtime, draining)
      else if PreservesIdentity(status, e) then
        Outcome(step.runtime, draining.(endpoint := Some(status.endpoint.value.(phase := Selecting))))
      else if e.hasSelected && e.gatewayReady then
        Outcome(step.runtime,
                draining.(generation := status.generation + 1, endpoint := Some(EndpointFor(e.selected, Selecting))))
      else
        Outcome(step.runtime, draining.(endpoint := None))
  }

  function Served(rt: Runtime, spec: Spec, status: Status, e: Evaluation, x: CallInputs): Outcome
    requires status.endpoint.Some?
  {
    var phase := if status.endpoint.value.phase.Active? then Active else Selecting;
    var serving := Blank(status, e).(endpoint := Some(EndpointFor(e.selected, phase)));
    if !x.portOk then Outcome(rt, serving)
    else
      var intent := IntentFor(spec, status, e, x.providerPort);
      var step := Reconciled(rt, spec.gatewayUid, intent, x.reconcile);
      if !(ExactObservation(step.reply, intent) && x.freshAnswer) then Outcome(step.runtime, serving)
      else Outcome(step.runtime, ApplyObservation(spec, serving, step.reply.observation, x.mappingUsable))
  }

  /** runtimeStatus: the runtime call one reconcile makes and the status it then
      wants to persist. */
  function RuntimeStatus(rt: Runtime, spec: Spec, status: Status, e: Evaluation, x: CallInputs): Outcome {
    if !e.runtimeEligible || (status.endpoint.None? && !e.hasSelected) then
      Outcome(rt, Blank(status, e))
    else if status.endpoint.None? then
      Outcome(rt,
              Blank(status, e).(generation := status.generation + 1,
                                endpoint := Some(EndpointFor(e.selected, Selecting))))
    else if !HandoffDrainReason(status.endpoint, e).NoDrain? then
      Drained(rt, spec, status, e, x)
    else
      Served(rt, spec, status, e, x)
  }

  class PortForwardLeaseReconciler {
    const spec: Spec
    const runtime: GatewayRuntimeManager

    constructor (spec: Spec, runtime: GatewayRuntimeManager)
      requires runtime.gatewayUid == spec.gatewayUid
      ensures this.spec == spec && this.runtime == runtime
    {
      this.spec := spec;
      this.runtime := runtime;
    }

    method DrainStatus(status: Status, e: Evaluation, x: CallInputs) returns (desired: Status)
      requires runtime.gatewayUid == spec.gatewayUid && status.endpoint.Some?
      modifies runtime
      ensures Outcome(runtime.View(), desired) == Drained(old(runtime.View()), spec, status, e, x)
    {
      desired := Blank(status, e);
      desired := desired.(endpoint := Some(status.endpoint.value.(phase := Draining)));
      if !x.portOk {
        return;
      }
      var retired := e.hasSelected && e.selected.podUid != status.endpoint.value.podUid;
      var w := WithdrawalFor(spec, status, retired, false, x.providerPort);
      var reply := runtime.Withdraw(w, x.withdraw);
      if !ExactWithdrawal(reply, w) || !x.freshAnswer {
        return;
      }
      if PreservesIdentity(status, e) {
        desired := desired.(endpoint := Some(status.endpoint.value.(phase := Selecting)));
        return;
      }
      desired := desired.(endpoint := None);
      if e.hasSelected && e.gatewayReady {
        desired := desired.(generation := desired.generation + 1);
        desired := desired.(endpoint := Some(EndpointFor(e.selected, Selecting)));
      }
    }

    method DesiredStatus(status: Status, e: Evaluation, x: CallInputs) returns (desired: Status)
      requires runtime.gatewayUid == spec.gatewayUid
      modifies runtime
      ensures Outcome(runtime.View(), desired) == RuntimeStatus(old(runtime.View()), spec, status, e, x)
    {
      desired := Blank(status, e);
      if !e.runtimeEligible {
        return;
      }
      var current := status.endpoint;
      if current.None? && !e.hasSelected {
        return;
      }
      if HandoffDrainReason(current, e) != NoDrain {
        desired := DrainStatus(status, e, x);
        return;
      }
      if current.None? {
        desired := desired.(generation := desired.generation + 1);
        desired := desired.(endpoint := Some(EndpointFor(e.selected, Selecting)));
        return;
      }
      desired := desired.(endpoint := Some(EndpointFor(e.selected, current.value.phase)));
      if !desired.endpoint.value.phase.Active? {
        desired := desired.(endpoint := Some(desired.endpoint.value.(phase := Selecting)));
      }
      if !x.portOk {
        return;
      }
      var intent := IntentFor(spec, status, e, x.providerPort);
      var reply := runtime.Reconcile(intent, x.reconcile);
      if !ExactObservation(reply, intent) || !x.freshAnswer {
        return;
      }
      desired := ApplyObservation(spec, desired, reply.observation, x.mappingUsable);
    }
  }
}
