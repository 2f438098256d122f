/** The observation-certificate rotation of internal/waycloakctl/certificate.go:
    nine checkpoints recomputed from cluster state, so that a run interrupted
    anywhere resumes where it was. Digests are compared as the bytes they stand
    for. */
module CertificateRotation {
  import opened Common

  type Pem = string

  /** The reviewed plan and the release it was made for. */
  datatype Plan = Plan(planId: string, sourceCa: Pem, sourceServing: Pem, sourceRotationId: string)

  /** The immutable staged Secret; the journal pins its public half. */
  datatype Staged = Staged(ca: Pem, cert: Pem, key: Pem)

  /** A running node agent: the CA bundle its node has projected, and the
      rotation identity and capability hold of the template it was started from. */
  datatype Agent = Agent(trust: Pem, rotationId: string, held: bool)

  /** `rotationId` and `held` are those of the DaemonSet's template. */
  datatype Cluster = Cluster(
    ca: Pem, tlsCa: Pem, serving: Pem, servingKey: Pem, rotationId: string, held: bool, agents: map<nat, Agent>,
    staged: Option<Staged>, journal: Option<Staged>)

  datatype Phase =
    | Source | OverlapCAOnly | OverlapOldAgent | OverlapNewAgent | ServingSwitched
    | PrunedTLSOnly | PrunedOldAgent | PrunedNewAgentHeld | Target

  const MAX_ATTEMPTS := 12

  predicate EndsInNewline(pem: Pem) {
    pem != [] && pem[|pem| - 1] == '\n'
  }

  function AppendPemBundle(first: Pem, second: Pem): Pem {
    if first != [] && !EndsInNewline(first) then first + ['\n'] + second else first + second
  }

  predicate HasSuffix(text: Pem, suffix: Pem) {
    |suffix| <= |text| && text[|text| - |suffix|..] == suffix
  }

  /** The source CA as one published bundle shows it. */
  function SourceFrom(plan: Plan, staged: Staged, candidate: Pem): Option<Pem> {
    if candidate == plan.sourceCa then Some(candidate)
    else if HasSuffix(candidate, staged.ca) && candidate[..|candidate| - |staged.ca|] == plan.sourceCa then
      Some(plan.sourceCa)
    else None
  }

  function SourceCaForPlan(plan: Plan, staged: Staged, c: Cluster): Option<Pem> {
    if SourceFrom(plan, staged, c.ca).Some? then SourceFrom(plan, staged, c.ca) else SourceFrom(plan, staged, c.tlsCa)
  }

  predicate OldServing(plan: Plan, c: Cluster) { c.serving == plan.sourceServing }

  predicate NewServing(staged: Staged, c: Cluster) { c.serving == staged.cert && c.servingKey == staged.key }

  /** The texts a plan derives: the overlap bundle and the two intermediate
      rotation identities. */
  datatype Derived = Derived(overlap: Pem, overlapId: string, newOnlyId: string)

  function DerivedFrom(plan: Plan, staged: Staged): Derived {
    Derived(AppendPemBundle(plan.sourceCa, staged.ca), plan.planId + "-overlap", plan.planId + "-new-only")
  }

  function Classify(plan: Plan, staged: Staged, d: Derived, recovered: bool, c: Cluster): Option<Phase> {
    if c.ca == staged.ca && c.tlsCa == staged.ca && NewServing(staged, c) then
      if c.rotationId == d.overlapId then if c.held then Some(PrunedOldAgent) else None
      else if c.rotationId == d.newOnlyId then if c.held then Some(PrunedNewAgentHeld) else None
      else if c.rotationId == plan.planId then if c.held then None else Some(Target)
      else None
    else if !recovered then None
    else
      var before := OldServing(plan, c) && c.rotationId == plan.sourceRotationId && !c.held;
      var during := c.rotationId == d.overlapId && c.held;
      if c.ca == plan.sourceCa && c.tlsCa == plan.sourceCa && before then Some(Source)
      else if c.ca == d.overlap && c.tlsCa == plan.sourceCa && before then Some(OverlapCAOnly)
      else if c.ca == d.overlap && c.tlsCa == d.overlap && before then Some(OverlapOldAgent)
      else if c.ca == d.overlap && c.tlsCa == d.overlap && OldServing(plan, c) && during then Some(OverlapNewAgent)
      else if c.ca == d.overlap && c.tlsCa == d.overlap && NewServing(staged, c) && during then Some(ServingSwitched)
      else if c.ca == d.overlap && c.tlsCa == staged.ca && NewServing(staged, c) && during then Some(PrunedTLSOnly)
      else None
  }

  /** observeCertificateRotationPhase; None is a refusal. */
  function Observe(plan: Plan, staged: Staged, c: Cluster): Option<Phase> {
    Classify(plan, staged, DerivedFrom(plan, staged), SourceCaForPlan(plan, staged, c).Some?, c)
  }

  /** A roll changes the template; its agents restart later, one by one. */
  function Rolled(c: Cluster, rotationId: string, held: bool): Cluster {
    c.(rotationId := rotationId, held := held)
  }

  /** The one durable change the loop body makes in each phase. */
  function Effect(plan: Plan, staged: Staged, d: Derived, c: Cluster, phase: Phase): Cluster {
    match phase
    case Source => c.(ca := d.overlap)
    case OverlapCAOnly => c.(tlsCa := d.overlap)
    case OverlapOldAgent => Rolled(c, d.overlapId, true)
    case OverlapNewAgent => c.(tlsCa := d.overlap, serving := staged.cert, servingKey := staged.key)
    case ServingSwitched => c.(tlsCa := staged.ca, serving := staged.cert, servingKey := staged.key)
    case PrunedTLSOnly => c.(ca := staged.ca)
    case PrunedOldAgent => Rolled(c, d.newOnlyId, true)
    case PrunedNewAgentHeld => Rolled(c, plan.planId, false)
    case Target => c
  }

  function Index(phase: Phase): nat {
    match phase
    case Source => 0 case OverlapCAOnly => 1 case OverlapOldAgent => 2
    case OverlapNewAgent => 3 case ServingSwitched => 4 case PrunedTLSOnly => 5
    case PrunedOldAgent => 6 case PrunedNewAgentHeld => 7 case Target => 8
  }

  /** What certificate parsing guarantees of the material: both CAs are there,
      and the staged identity is another one. */
  predicate Usable(plan: Plan, staged: Staged) {
    plan.sourceCa != [] && staged.ca != [] && staged.ca != plan.sourceCa && staged.cert != plan.sourceServing
  }

  /** An independent description of the nine checkpoints. */
  predicate At(plan: Plan, staged: Staged, d: Derived, c: Cluster, phase: Phase) {
    var i := Index(phase);
    && c.ca == (if i == 0 then plan.sourceCa else if i <= 5 then d.overlap else staged.ca)
    && c.tlsCa == (if i <= 1 then plan.sourceCa else if i <= 4 then d.overlap else staged.ca)
    && (if i <= 3 then OldServing(plan, c) else NewServing(staged, c))
    && c.rotationId == (if i <= 2 then plan.sourceRotationId
                        else if i <= 6 then d.overlapId
                        else if i == 7 then d.newOnlyId else plan.planId)
    && (c.held <==> 3 <= i <= 7)
  }

  // ---- The overlap can be taken apart exactly when the source ends in a newline ----

  /** Stripping the staged CA from the overlap gives the source back if and only
      if the source ends in a newline. */
  lemma StripRecoversSource(plan: Plan, staged: Staged)
    requires Usable(plan, staged)
    ensures SourceFrom(plan, staged, AppendPemBundle(plan.sourceCa, staged.ca))
            == if EndsInNewline(plan.sourceCa) then Some(plan.sourceCa) else None
  {
    var source := plan.sourceCa;
    var overlap := AppendPemBundle(source, staged.ca);
    assert overlap[|overlap| - |staged.ca|..] == staged.ca;
    if EndsInNewline(source) {
      assert overlap[..|overlap| - |staged.ca|] == source;
    } else {
      assert overlap[..|overlap| - |staged.ca|] == source + ['\n'];
    }
  }

  predicate Distinct(plan: Plan, staged: Staged, d: Derived) {
    && d.overlap != plan.sourceCa && d.overlap != staged.ca
    && d.overlapId != d.newOnlyId && d.overlapId != plan.planId && d.newOnlyId != plan.planId
  }

  lemma DerivedDistinct(plan: Plan, staged: Staged)
    requires Usable(plan, staged)
    ensures Distinct(plan, staged, DerivedFrom(plan, staged))
  {
    var d := DerivedFrom(plan, staged);
    assert |d.overlap| > |staged.ca| && |d.overlap| > |plan.sourceCa|;
    assert |d.overlapId| == |plan.planId| + 8 && |d.newOnlyId| == |plan.planId| + 9;
  }

  lemma ClassifiedExactly(plan: Plan, staged: Staged, d: Derived, recovered: bool, c: Cluster, phase: Phase)
    requires Usable(plan, staged) && Distinct(plan, staged, d)
    ensures Classify(plan, staged, d, recovered, c) == Some(phase) <==>
              At(plan, staged, d, c, phase) && (Index(phase) <= 5 ==> recovered)
  {
  }

  /** Which checkpoints still show the source CA. */
  lemma Recoverable(plan: Plan, staged: Staged, c: Cluster, phase: Phase)
    requires Usable(plan, staged) && At(plan, staged, DerivedFrom(plan, staged), c, phase) && Index(phase) <= 5
    ensures SourceCaForPlan(plan, staged, c).Some? <==> Index(phase) <= 1 || EndsInNewline(plan.sourceCa)
  {
    StripRecoversSource(plan, staged);
    assert staged.ca[..|staged.ca| - |staged.ca|] == [];
  }

  /** What the tool observes is exactly the checkpoint the cluster is at, except
      that the four phases after the overlap reaches the serving Secret are
      observed just when the source CA ends in a newline. */
  lemma ObservedExactly(plan: Plan, staged: Staged, c: Cluster, phase: Phase)
    requires Usable(plan, staged)
    ensures Observe(plan, staged, c) == Some(phase) <==>
              && At(plan, staged, DerivedFrom(plan, staged), c, phase)
              && (2 <= Index(phase) <= 5 ==> EndsInNewline(plan.sourceCa))
  {
    var d := DerivedFrom(plan, staged);
    DerivedDistinct(plan, staged);
    ClassifiedExactly(plan, staged, d, SourceCaForPlan(plan, staged, c).Some?, c, phase);
    if At(plan, staged, d, c, phase) && Index(phase) <= 5 {
      Recoverable(plan, staged, c, phase);
    }
  }

  lemma EffectAdvances(plan: Plan, staged: Staged, d: Derived, c: Cluster, phase: Phase, next: Phase)
    requires At(plan, staged, d, c, phase) && Index(next) == Index(phase) + 1
    ensures At(plan, staged, d, Effect(plan, staged, d, c, phase), next)
  {
  }

  /** From each checkpoint the loop body's effect is observed as exactly the next
      checkpoint, except that publishing the overlap a second time is observed
      only when the source CA ends in a newline. */
  lemma EffectIsObservedAsNext(plan: Plan, staged: Staged, c: Cluster, phase: Phase, next: Phase)
    requires Usable(plan, staged) && Observe(plan, staged, c) == Some(phase) && Index(next) == Index(phase) + 1
    ensures Observe(plan, staged, Effect(plan, staged, DerivedFrom(plan, staged), c, phase)) == Some(next) <==>
              (phase == OverlapCAOnly ==> EndsInNewline(plan.sourceCa))
  {
    var d := DerivedFrom(plan, staged);
    ObservedExactly(plan, staged, c, phase);
    EffectAdvances(plan, staged, d, c, phase, next);
    ObservedExactly(plan, staged, Effect(plan, staged, d, c, phase), next);
  }

  /** A source CA without a final newline leaves the tool unable to name the phase it
      has itself reached. */
  lemma StuckWithoutNewline()
    ensures var plan, staged := Plan("p", "a", "s", "r"), Staged("b", "c", "k");
            var c := Cluster("a\nb", "a\nb", "s", "", "r", false, map[], Some(staged), Some(staged));
            Usable(plan, staged) && At(plan, staged, DerivedFrom(plan, staged), c, OverlapOldAgent)
              && Observe(plan, staged, c).None?
  {
    var plan, staged := Plan("p", "a", "s", "r"), Staged("b", "c", "k");
    assert AppendPemBundle("a", "b") == "a\nb";
    StripRecoversSource(plan, staged);
  }

  // ---- Trust at every checkpoint ----

  ghost predicate Contains(bundle: Pem, pem: Pem) {
    exists k :: 0 <= k <= |bundle| && pem <= bundle[k..]
  }

  function NewAgent(c: Cluster): Agent {
    Agent(c.ca, c.rotationId, c.held)
  }

  /** What the cluster does by itself, at any time: a node projects the current CA
      bundle to its agent, or starts its agent from the current template. */
  datatype Move = Project(node: nat) | Restart(node: nat)

  function After(c: Cluster, m: Move): Cluster {
    match m
    case Project(n) => if n in c.agents then c.(agents := c.agents[n := c.agents[n].(trust := c.ca)]) else c
    case Restart(n) => c.(agents := c.agents[n := NewAgent(c)])
  }

  predicate Lagging(plan: Plan, a: Agent) {
    a.rotationId == plan.sourceRotationId && !a.held
  }

  /** Which agents a checkpoint may meet. One that has not restarted since before
      the rotation may be there to the end. */
  predicate AgentOk(plan: Plan, staged: Staged, d: Derived, phase: Phase, a: Agent) {
    var i := Index(phase);
    && a.trust in (if i == 0 then {plan.sourceCa}
                   else if i <= 4 then {plan.sourceCa, d.overlap}
                   else if i == 5 then {d.overlap} else {d.overlap, staged.ca})
    && (|| Lagging(plan, a)
        || (3 <= i && a.rotationId == d.overlapId && a.held && a.trust != plan.sourceCa)
        || (7 <= i && a.rotationId == d.newOnlyId && a.held && a.trust == staged.ca)
        || (8 <= i && a.rotationId == plan.planId && !a.held && a.trust == staged.ca))
  }

  ghost predicate Checkpoint(plan: Plan, staged: Staged, c: Cluster, phase: Phase) {
    var d := DerivedFrom(plan, staged);
    && At(plan, staged, d, c, phase)
    && forall n :: n in c.agents ==> AgentOk(plan, staged, d, phase, c.agents[n])
  }

  /** The agent can verify the certificate that is served. */
  predicate Authenticates(plan: Plan, staged: Staged, c: Cluster, a: Agent) {
    a.trust == DerivedFrom(plan, staged).overlap
      || a.trust == (if OldServing(plan, c) then plan.sourceCa else staged.ca)
  }

  predicate AllAuthenticate(plan: Plan, staged: Staged, c: Cluster) {
    forall n :: n in c.agents ==> Authenticates(plan, staged, c, c.agents[n])
  }

  lemma MoveKeepsCheckpoint(plan: Plan, staged: Staged, c: Cluster, phase: Phase, m: Move)
    requires Usable(plan, staged) && Checkpoint(plan, staged, c, phase)
    ensures Checkpoint(plan, staged, After(c, m), phase)
  {
    DerivedDistinct(plan, staged);
    var d := DerivedFrom(plan, staged);
    assert AgentOk(plan, staged, d, phase, NewAgent(c));
    assert forall n :: n in c.agents ==> AgentOk(plan, staged, d, phase, c.agents[n].(trust := c.ca));
  }

  /** The loop body takes each checkpoint to the next. Before it prunes, every agent
      has reported through the new certificate. */
  lemma CheckpointAdvances(plan: Plan, staged: Staged, c: Cluster, phase: Phase, next: Phase)
    requires Usable(plan, staged) && Checkpoint(plan, staged, c, phase) && Index(next) == Index(phase) + 1
    requires phase == ServingSwitched ==> AllAuthenticate(plan, staged, c)
    ensures Checkpoint(plan, staged, Effect(plan, staged, DerivedFrom(plan, staged), c, phase), next)
  {
    var d := DerivedFrom(plan, staged);
    DerivedDistinct(plan, staged);
    EffectAdvances(plan, staged, d, c, phase, next);
    forall n | n in c.agents ensures AgentOk(plan, staged, d, next, c.agents[n]) {
      assert AgentOk(plan, staged, d, phase, c.agents[n]);
    }
  }

  lemma OverlapContainsBoth(plan: Plan, staged: Staged)
    ensures Contains(DerivedFrom(plan, staged).overlap, plan.sourceCa)
    ensures Contains(DerivedFrom(plan, staged).overlap, staged.ca)
  {
    var overlap := AppendPemBundle(plan.sourceCa, staged.ca);
    assert plan.sourceCa <= overlap[0..];
    assert staged.ca <= overlap[|overlap| - |staged.ca|..];
  }

  /** At every checkpoint the CA that issued the serving certificate is in both
      published bundles, and in that of each agent which can verify it. */
  lemma ServingAlwaysTrusted(plan: Plan, staged: Staged, c: Cluster, phase: Phase)
    requires Usable(plan, staged) && Checkpoint(plan, staged, c, phase)
    ensures var issuer := if OldServing(plan, c) then plan.sourceCa else staged.ca;
            && Contains(c.ca, issuer) && Contains(c.tlsCa, issuer)
            && forall n :: n in c.agents && Authenticates(plan, staged, c, c.agents[n]) ==>
                 Contains(c.agents[n].trust, issuer)
  {
    OverlapContainsBoth(plan, staged);
    assert plan.sourceCa <= plan.sourceCa[0..] && staged.ca <= staged.ca[0..];
  }

  /** An agent can verify the served certificate at every checkpoint, but right after
      the switch only if it no longer has the source bundle. */
  lemma AgentVerifies(plan: Plan, staged: Staged, c: Cluster, phase: Phase, n: nat)
    requires Usable(plan, staged) && Checkpoint(plan, staged, c, phase) && n in c.agents
    ensures var a := c.agents[n];
            && (Authenticates(plan, staged, c, a) <==> !(phase == ServingSwitched && a.trust == plan.sourceCa))
            && (!Authenticates(plan, staged, c, a) ==> Lagging(plan, a))
  {
    DerivedDistinct(plan, staged);
    assert AgentOk(plan, staged, DerivedFrom(plan, staged), phase, c.agents[n]);
  }

  // ---- Whole runs ----

  datatype Step = ByCluster(move: Move) | ByTool

  ghost predicate Takes(plan: Plan, staged: Staged, c: Cluster, step: Step, c': Cluster) {
    match step
    case ByCluster(m) => c' == After(c, m)
    case ByTool =>
      match Observe(plan, staged, c)
      case None => false
      case Some(phase) =>
        && phase != Target && (phase == ServingSwitched ==> AllAuthenticate(plan, staged, c))
        && c' == Effect(plan, staged, DerivedFrom(plan, staged), c, phase)
  }

  ghost predicate TakesAt(plan: Plan, staged: Staged, cs: seq<Cluster>, steps: seq<Step>, i: nat)
    requires i < |steps| < |cs|
  {
    Takes(plan, staged, cs[i], steps[i], cs[i + 1])
  }

  /** Interruptions and reruns need no step of their own: a rerun goes on from the
      checkpoint it observes, whether or not its predecessor waited. */
  ghost predicate IsRun(plan: Plan, staged: Staged, cs: seq<Cluster>, steps: seq<Step>) {
    && Usable(plan, staged) && |cs| == |steps| + 1 && Checkpoint(plan, staged, cs[0], Source)
    && forall i :: 0 <= i < |steps| ==> TakesAt(plan, staged, cs, steps, i)
  }

  lemma StepKeepsCheckpoint(plan: Plan, staged: Staged, c: Cluster, step: Step, c': Cluster, phase: Phase)
    returns (next: Phase)
    requires Usable(plan, staged) && Checkpoint(plan, staged, c, phase) && Takes(plan, staged, c, step, c')
    ensures Checkpoint(plan, staged, c', next)
    ensures next == if step.ByTool? then Following(Observe(plan, staged, c).value) else phase
    ensures step.ByTool? ==> Observe(plan, staged, c) == Some(phase)
  {
    match step
    case ByCluster(m) =>
      MoveKeepsCheckpoint(plan, staged, c, phase, m);
      return phase;
    case ByTool =>
      var observed := Observe(plan, staged, c).value;
      ObservedExactly(plan, staged, c, observed);
      DerivedDistinct(plan, staged);
      CheckpointsDiffer(plan, staged, c, phase, observed);
      CheckpointAdvances(plan, staged, c, phase, Following(phase));
      return Following(phase);
  }

  lemma CheckpointsDiffer(plan: Plan, staged: Staged, c: Cluster, phase: Phase, other: Phase)
    requires Usable(plan, staged) && Distinct(plan, staged, DerivedFrom(plan, staged))
    requires At(plan, staged, DerivedFrom(plan, staged), c, phase)
    requires At(plan, staged, DerivedFrom(plan, staged), c, other)
    ensures phase == other
  {
  }

  /** What the tool observes at a checkpoint: that one, or nothing. */
  lemma ObservesOwn(plan: Plan, staged: Staged, c: Cluster, phase: Phase)
    requires Usable(plan, staged) && Checkpoint(plan, staged, c, phase)
    ensures Observe(plan, staged, c) ==
            if 2 <= Index(phase) <= 5 && !EndsInNewline(plan.sourceCa) then None else Some(phase)
  {
    DerivedDistinct(plan, staged);
    ObservedExactly(plan, staged, c, phase);
    var observed := Observe(plan, staged, c);
    if observed.Some? {
      ObservedExactly(plan, staged, c, observed.value);
      CheckpointsDiffer(plan, staged, c, phase, observed.value);
    }
  }

  function NextPhase(step: Step, phase: Phase): Phase {
    if step.ByTool? && phase != Target then Following(phase) else phase
  }

  /** Where a run is after k steps: one phase further for each step of the tool. */
  function PhaseAt(steps: seq<Step>, k: nat): Phase
    requires k <= |steps|
  {
    if k == 0 then Source else NextPhase(steps[k - 1], PhaseAt(steps, k - 1))
  }

  lemma {:induction false} PhasesAdvance(steps: seq<Step>, j: nat, k: nat)
    requires j <= k <= |steps|
    ensures Index(PhaseAt(steps, j)) <= Index(PhaseAt(steps, k))
  {
    if j < k {
      PhasesAdvance(steps, j, k - 1);
    }
  }

  lemma RunStep(plan: Plan, staged: Staged, cs: seq<Cluster>, steps: seq<Step>, k: nat, phase: Phase)
    requires IsRun(plan, staged, cs, steps) && k < |steps| && Checkpoint(plan, staged, cs[k], phase)
    ensures Checkpoint(plan, staged, cs[k + 1], NextPhase(steps[k], phase))
    ensures steps[k].ByTool? ==> Observe(plan, staged, cs[k]) == Some(phase)
  {
    assert TakesAt(plan, staged, cs, steps, k);
    var next := StepKeepsCheckpoint(plan, staged, cs[k], steps[k], cs[k + 1], phase);
    assert next == NextPhase(steps[k], phase);
  }

  /** Every state of every run is at the checkpoint that its steps lead to. */
  lemma {:induction false} RunAt(plan: Plan, staged: Staged, cs: seq<Cluster>, steps: seq<Step>, k: nat)
    requires IsRun(plan, staged, cs, steps) && k < |cs|
    ensures Checkpoint(plan, staged, cs[k], PhaseAt(steps, k))
  {
    if k > 0 {
      var j := k - 1;
      RunAt(plan, staged, cs, steps, j);
      RunStep(plan, staged, cs, steps, j, PhaseAt(steps, j));
      assert cs[j + 1] == cs[k] && PhaseAt(steps, k) == NextPhase(steps[j], PhaseAt(steps, j));
    }
  }

  ghost predicate Restarted(steps: seq<Step>, n: nat, j: nat, k: nat) {
    exists i :: j <= i < k && i < |steps| && steps[i] == ByCluster(Restart(n))
  }

  predicate IsHeld(c: Cluster, n: nat) {
    n in c.agents && c.agents[n].held
  }

  /** What a step does to the agents: the tool reaches them only through the
      cluster. */
  function AgentsAfter(c: Cluster, step: Step): map<nat, Agent> {
    if step.ByTool? then c.agents else After(c, step.move).agents
  }

  lemma AgentsStep(plan: Plan, staged: Staged, cs: seq<Cluster>, steps: seq<Step>, k: nat)
    requires IsRun(plan, staged, cs, steps) && k < |steps|
    ensures cs[k + 1].agents == AgentsAfter(cs[k], steps[k])
  {
    assert TakesAt(plan, staged, cs, steps, k);
  }

  /** From the overlap roll to the final one an agent is held if and only if it was
      held before or has restarted since. */
  lemma {:induction false} HeldExactly(
    plan: Plan, staged: Staged, cs: seq<Cluster>, steps: seq<Step>, j: nat, k: nat, n: nat)
    requires IsRun(plan, staged, cs, steps) && j <= k < |cs|
    requires forall i :: j <= i <= k ==> cs[i].held
    ensures IsHeld(cs[k], n) <==> IsHeld(cs[j], n) || Restarted(steps, n, j, k)
    decreases k
  {
    if j < k {
      HeldExactly(plan, staged, cs, steps, j, k - 1, n);
      AgentsStep(plan, staged, cs, steps, k - 1);
    }
  }

  /** The serving certificate is switched once, while the template is held, which it
      stays until the final roll; and an agent that is held at the switch can verify
      the served certificate then and in every later state. */
  lemma HeldAcrossTheSwitch(
    plan: Plan, staged: Staged, cs: seq<Cluster>, steps: seq<Step>, j: nat, k: nat, n: nat)
    requires IsRun(plan, staged, cs, steps) && j < k < |cs| && cs[j + 1].serving != cs[j].serving
    ensures Observe(plan, staged, cs[j]) == Some(OverlapNewAgent) && cs[j].held && cs[k].serving == staged.cert
    ensures !cs[k].held ==> cs[k].rotationId == plan.planId
    ensures IsHeld(cs[j], n) && n in cs[k].agents ==> Authenticates(plan, staged, cs[k], cs[k].agents[n])
  {
    SwitchPhase(plan, staged, cs, steps, j);
    PhasesAdvance(steps, j + 1, k);
    AfterSwitch(plan, staged, cs, steps, k);
    if IsHeld(cs[j], n) && n in cs[k].agents {
      SourceTrustIsOld(plan, staged, cs, steps, j, k, n);
      RunVerifies(plan, staged, cs, steps, k, n);
    }
  }

  lemma SwitchPhase(plan: Plan, staged: Staged, cs: seq<Cluster>, steps: seq<Step>, j: nat)
    requires IsRun(plan, staged, cs, steps) && j < |steps| && cs[j + 1].serving != cs[j].serving
    ensures PhaseAt(steps, j) == OverlapNewAgent && PhaseAt(steps, j + 1) == ServingSwitched
    ensures Observe(plan, staged, cs[j]) == Some(OverlapNewAgent) && cs[j].held
  {
    RunAt(plan, staged, cs, steps, j);
    RunStep(plan, staged, cs, steps, j, PhaseAt(steps, j));
    assert TakesAt(plan, staged, cs, steps, j);
  }

  lemma AfterSwitch(plan: Plan, staged: Staged, cs: seq<Cluster>, steps: seq<Step>, k: nat)
    requires IsRun(plan, staged, cs, steps) && k < |cs| && 4 <= Index(PhaseAt(steps, k))
    ensures cs[k].serving == staged.cert && (!cs[k].held ==> cs[k].rotationId == plan.planId)
  {
    RunAt(plan, staged, cs, steps, k);
  }

  lemma RunVerifies(plan: Plan, staged: Staged, cs: seq<Cluster>, steps: seq<Step>, k: nat, n: nat)
    requires IsRun(plan, staged, cs, steps) && k < |cs| && n in cs[k].agents
    ensures Authenticates(plan, staged, cs[k], cs[k].agents[n]) <==>
            !(PhaseAt(steps, k) == ServingSwitched && cs[k].agents[n].trust == plan.sourceCa)
  {
    RunAt(plan, staged, cs, steps, k);
    AgentVerifies(plan, staged, cs[k], PhaseAt(steps, k), n);
  }

  lemma RunHeldIsLate(plan: Plan, staged: Staged, cs: seq<Cluster>, steps: seq<Step>, k: nat, n: nat)
    requires IsRun(plan, staged, cs, steps) && k < |cs| && IsHeld(cs[k], n)
    ensures 3 <= Index(PhaseAt(steps, k)) && cs[k].agents[n].trust != plan.sourceCa
  {
    RunAt(plan, staged, cs, steps, k);
    HeldIsLate(plan, staged, cs[k], PhaseAt(steps, k), n);
  }

  lemma HeldIsLate(plan: Plan, staged: Staged, c: Cluster, phase: Phase, n: nat)
    requires Usable(plan, staged) && Checkpoint(plan, staged, c, phase) && IsHeld(c, n)
    ensures 3 <= Index(phase) && c.agents[n].trust != plan.sourceCa
  {
    assert AgentOk(plan, staged, DerivedFrom(plan, staged), phase, c.agents[n]);
  }

  lemma BundleAt(plan: Plan, staged: Staged, c: Cluster, phase: Phase)
    requires Usable(plan, staged) && Checkpoint(plan, staged, c, phase)
    ensures c.ca == plan.sourceCa <==> phase == Source
  {
    DerivedDistinct(plan, staged);
  }

  lemma TrustStep(plan: Plan, c: Cluster, step: Step, n: nat)
    requires c.ca != plan.sourceCa && n in c.agents && c.agents[n].trust != plan.sourceCa
    ensures n in AgentsAfter(c, step) && AgentsAfter(c, step)[n].trust != plan.sourceCa
  {
  }

  /** An agent that was held after the overlap roll no longer has the bundle of
      before the rotation. */
  lemma {:induction false} SourceTrustIsOld(
    plan: Plan, staged: Staged, cs: seq<Cluster>, steps: seq<Step>, j: nat, k: nat, n: nat)
    requires IsRun(plan, staged, cs, steps) && j <= k < |cs| && IsHeld(cs[j], n)
    ensures n in cs[k].agents && cs[k].agents[n].trust != plan.sourceCa
    decreases k
  {
    RunHeldIsLate(plan, staged, cs, steps, j, n);
    if j < k {
      SourceTrustIsOld(plan, staged, cs, steps, j, k - 1, n);
      PhasesAdvance(steps, j, k - 1);
      PublishedAt(plan, staged, cs, steps, k - 1);
      AgentsStep(plan, staged, cs, steps, k - 1);
      TrustStep(plan, cs[k - 1], steps[k - 1], n);
    }
  }

  /** The source bundle is the published one exactly in the first phase. */
  lemma PublishedAt(plan: Plan, staged: Staged, cs: seq<Cluster>, steps: seq<Step>, k: nat)
    requires IsRun(plan, staged, cs, steps) && k < |cs|
    ensures cs[k].ca == plan.sourceCa <==> PhaseAt(steps, k) == Source
  {
    RunAt(plan, staged, cs, steps, k);
    BundleAt(plan, staged, cs[k], PhaseAt(steps, k));
  }

  predicate Refreshes(step: Step, n: nat) {
    step == ByCluster(Restart(n)) || step == ByCluster(Project(n))
  }

  ghost predicate Refreshed(steps: seq<Step>, n: nat, j: nat, k: nat) {
    exists i :: j <= i < k && i < |steps| && Refreshes(steps[i], n)
  }

  /** When the overlap is published every agent has the source bundle. */
  lemma AtPublication(plan: Plan, staged: Staged, cs: seq<Cluster>, steps: seq<Step>, j: nat, n: nat)
    requires IsRun(plan, staged, cs, steps) && j < |steps| && cs[j].ca == plan.sourceCa != cs[j + 1].ca
    requires n in cs[j + 1].agents
    ensures cs[j + 1].agents[n].trust == plan.sourceCa
  {
    PublishedAt(plan, staged, cs, steps, j);
    PublishedAt(plan, staged, cs, steps, j + 1);
    AgentsStep(plan, staged, cs, steps, j);
    RunAt(plan, staged, cs, steps, j);
    assert AgentOk(plan, staged, DerivedFrom(plan, staged), Source, cs[j].agents[n]);
  }

  /** From then on it has it until it restarts or the new one is projected. */
  lemma {:induction false} SourceTrustExactly(
    plan: Plan, staged: Staged, cs: seq<Cluster>, steps: seq<Step>, j: nat, k: nat, n: nat)
    requires IsRun(plan, staged, cs, steps) && j < k < |cs| && cs[j].ca == plan.sourceCa != cs[j + 1].ca
    requires n in cs[k].agents
    ensures cs[k].agents[n].trust == plan.sourceCa <==> !Refreshed(steps, n, j + 1, k)
    decreases k
  {
    if k == j + 1 {
      AtPublication(plan, staged, cs, steps, j, n);
    } else {
      AgentsStep(plan, staged, cs, steps, k - 1);
      PublishedAt(plan, staged, cs, steps, j + 1);
      PublishedAt(plan, staged, cs, steps, k - 1);
      PhasesAdvance(steps, j + 1, k - 1);
      if n in cs[k - 1].agents {
        SourceTrustExactly(plan, staged, cs, steps, j, k - 1, n);
      }
      if Refreshes(steps[k - 1], n) {
        assert Refreshed(steps, n, j + 1, k);
      }
    }
  }

  /** In every run in which the overlap was published at step j, an agent can verify the
      served certificate at every later point, except right after the switch: there it
      cannot exactly if it has neither restarted since nor had a bundle projected. */
  lemma TrustedExactly(plan: Plan, staged: Staged, cs: seq<Cluster>, steps: seq<Step>, j: nat, k: nat, n: nat)
    requires IsRun(plan, staged, cs, steps) && j < k < |cs| && cs[j].ca == plan.sourceCa != cs[j + 1].ca
    requires n in cs[k].agents
    ensures Authenticates(plan, staged, cs[k], cs[k].agents[n]) <==>
            !(PhaseAt(steps, k) == ServingSwitched && !Refreshed(steps, n, j + 1, k))
  {
    SourceTrustExactly(plan, staged, cs, steps, j, k, n);
    RunVerifies(plan, staged, cs, steps, k, n);
  }

  /** A run cut short while its agents still roll: the rerun finds the template
      changed and switches the certificate, with an agent that is neither held nor
      able to verify it. */
  lemma SwitchedBeforeRolled()
    ensures var plan, staged := Plan("p", "a\n", "s", "r"), Staged("b", "c", "k");
            var d := DerivedFrom(plan, staged);
            var c :=
              Cluster("a\nb", "a\nb", "s", "", "r", false, map[0 := Agent("a\n", "r", false)], Some(staged),
                      Some(staged));
            var cut := Effect(plan, staged, d, c, OverlapOldAgent);
            var switched := Effect(plan, staged, d, cut, OverlapNewAgent);
            && Usable(plan, staged) && Checkpoint(plan, staged, c, OverlapOldAgent)
            && Takes(plan, staged, c, ByTool, cut) && Takes(plan, staged, cut, ByTool, switched)
            && !IsHeld(switched, 0) && !Authenticates(plan, staged, switched, switched.agents[0])
  {
    var plan, staged := Plan("p", "a\n", "s", "r"), Staged("b", "c", "k");
    assert AppendPemBundle("a\n", "b") == "a\nb";
    var d := DerivedFrom(plan, staged);
    var c :=
      Cluster("a\nb", "a\nb", "s", "", "r", false, map[0 := Agent("a\n", "r", false)], Some(staged), Some(staged));
    var cut := Effect(plan, staged, d, c, OverlapOldAgent);
    ObservedExactly(plan, staged, c, OverlapOldAgent);
    ObservedExactly(plan, staged, cut, OverlapNewAgent);
  }

  // ---- The tool ----

  /** Where a run may be cut short relative to a durable change. */
  datatype Fault = NoFault | BeforeChange | AfterChange

  /** What one iteration meets: where it is cut short, what the cluster does before
      it and while it waits, whether the rollout then completes and whether the
      agents' reports arrive. */
  datatype Turn = Turn(fault: Fault, before: seq<Move>, during: seq<Move>, settles: bool, reported: bool)

  const STEADY := Turn(NoFault, [], [], true, true)

  predicate Steady(turn: Turn) {
    turn.fault == NoFault && turn.settles && turn.reported
  }

  predicate Uninterrupted(turns: seq<Turn>) {
    forall i :: 0 <= i < |turns| ==> Steady(turns[i])
  }

  predicate AllRolled(c: Cluster) {
    forall n :: n in c.agents ==> c.agents[n].rotationId == c.rotationId && c.agents[n].held == c.held
  }

  predicate NoneHeld(c: Cluster) {
    forall n :: n in c.agents ==> !c.agents[n].held
  }

  /** Every agent restarted from the current template. */
  function Settled(c: Cluster): Cluster {
    c.(agents := map n | n in c.agents :: NewAgent(c))
  }

  lemma MoveKeepsHeld(c: Cluster, m: Move)
    ensures c.held ==> forall n :: IsHeld(c, n) ==> IsHeld(After(c, m), n)
  {
  }

  lemma SettledKeepsCheckpoint(plan: Plan, staged: Staged, c: Cluster, phase: Phase)
    requires Usable(plan, staged) && Checkpoint(plan, staged, c, phase)
    ensures Checkpoint(plan, staged, Settled(c), phase) && AllRolled(Settled(c))
    ensures AllAuthenticate(plan, staged, Settled(c))
  {
    MoveKeepsCheckpoint(plan, staged, c, phase, Restart(0));
    assert After(c, Restart(0)).agents[0] == NewAgent(c);
    AgentVerifies(plan, staged, After(c, Restart(0)), phase, 0);
  }

  /** Every state an interrupted rotation can leave. */
  ghost predicate Resumable(plan: Plan, c: Cluster) {
    match (c.journal, c.staged)
    case (None, None) => exists s :: Usable(plan, s) && Checkpoint(plan, s, c, Source)
    case (None, Some(s)) => Usable(plan, s) && Checkpoint(plan, s, c, Source)
    case (Some(s), Some(t)) => s == t && Usable(plan, s) && exists phase :: Checkpoint(plan, s, c, phase)
    case (Some(s), None) => Usable(plan, s) && Checkpoint(plan, s, c, Target) && NoneHeld(c)
  }

  ghost predicate Completed(plan: Plan, staged: Staged, c: Cluster) {
    c.journal.None? && c.staged.None? && Checkpoint(plan, staged, c, Target) && NoneHeld(c)
  }

  /** After completion the old CA is trusted only by agents that never restarted
      during the rotation. */
  lemma OldTrustRetired(plan: Plan, staged: Staged, c: Cluster, n: nat)
    requires Usable(plan, staged) && Completed(plan, staged, c) && n in c.agents
    ensures !Lagging(plan, c.agents[n]) ==> c.agents[n] == Agent(staged.ca, plan.planId, false)
  {
    assert AgentOk(plan, staged, DerivedFrom(plan, staged), Target, c.agents[n]);
  }

  /** An interrupted rotation stays resumable whatever its agents do meanwhile. */
  lemma MoveKeepsResumable(plan: Plan, c: Cluster, m: Move)
    requires Resumable(plan, c)
    ensures Resumable(plan, After(c, m))
  {
    match (c.journal, c.staged)
    case (None, None) =>
      var s :| Usable(plan, s) && Checkpoint(plan, s, c, Source);
      MoveKeepsCheckpoint(plan, s, c, Source, m);
    case (None, Some(s)) => MoveKeepsCheckpoint(plan, s, c, Source, m);
    case (Some(s), Some(t)) =>
      var phase :| Checkpoint(plan, s, c, phase);
      MoveKeepsCheckpoint(plan, s, c, phase, m);
    case (Some(s), None) => MoveKeepsCheckpoint(plan, s, c, Target, m);
  }

  /** The release is still the one the plan was reviewed for. */
  predicate SourceUnchanged(plan: Plan, c: Cluster) {
    && c.ca == plan.sourceCa && c.tlsCa == plan.sourceCa && OldServing(plan, c)
    && c.rotationId == plan.sourceRotationId && !c.held
  }

  predicate CompletedWithoutStaged(plan: Plan, target: Staged, c: Cluster) {
    c.rotationId == plan.planId && !c.held && c.ca == target.ca && c.tlsCa == target.ca && c.serving == target.cert
  }

  /** The identity a run works towards. */
  function Identity(c: Cluster, generated: Staged): Staged {
    if c.journal.Some? then c.journal.value else if c.staged.Some? then c.staged.value else generated
  }

  /** A run in the phase loop, at a checkpoint. */
  ghost predicate InProgress(plan: Plan, staged: Staged, c: Cluster, at: Phase) {
    c.journal == Some(staged) && c.staged == Some(staged) && Checkpoint(plan, staged, c, at)
  }

  ghost predicate ReachedFrom(plan: Plan, staged: Staged, c: Cluster, start: Phase) {
    exists phase :: Checkpoint(plan, staged, c, phase) && Index(start) <= Index(phase)
  }

  datatype Progress = Stuck | Cut | Moved | Finished

  class RotationTool {
    const plan: Plan
    var c: Cluster

    constructor (plan: Plan, c: Cluster)
      ensures this.plan == plan && this.c == c
    {
      this.plan := plan;
      this.c := c;
    }

    /** The cluster's own moves. */
    method Live(moves: seq<Move>, ghost staged: Staged, ghost at: Phase)
      requires Usable(plan, staged) && InProgress(plan, staged, c, at)
      modifies this
      ensures InProgress(plan, staged, c, at) && c == old(c).(agents := c.agents)
      ensures old(c).held ==> forall n :: IsHeld(old(c), n) ==> IsHeld(c, n)
    {
      for i := 0 to |moves|
        invariant InProgress(plan, staged, c, at) && c == old(c).(agents := c.agents)
        invariant old(c).held ==> forall n :: IsHeld(old(c), n) ==> IsHeld(c, n)
      {
        MoveKeepsCheckpoint(plan, staged, c, at, moves[i]);
        MoveKeepsHeld(c, moves[i]);
        c := After(c, moves[i]);
      }
    }

    /** The waits: for the rollout, when one was started, for every agent's
        authenticated report, and at the end for the held ones to be gone. */
    method Await(staged: Staged, turn: Turn, rolled: bool, ready: bool, ghost at: Phase) returns (ok: bool)
      requires Usable(plan, staged) && InProgress(plan, staged, c, at)
      modifies this
      ensures InProgress(plan, staged, c, at) && c == old(c).(agents := c.agents)
      ensures ok ==> AllAuthenticate(plan, staged, c) && (rolled ==> AllRolled(c)) && (ready ==> NoneHeld(c))
      ensures Steady(turn) && (ready ==> !old(c).held) ==> ok
      ensures old(c).held ==> forall n :: IsHeld(old(c), n) ==> IsHeld(c, n)
    {
      Live(turn.during, staged, at);
      if turn.settles {
        SettledKeepsCheckpoint(plan, staged, c, at);
        c := Settled(c);
      }
      ok := turn.reported && AllAuthenticate(plan, staged, c) && (rolled ==> AllRolled(c)) && (ready ==> NoneHeld(c));
    }

    /** One iteration of the phase loop. Once an agent is held it stays held until
        the final roll, and after a roll that was waited for all of them are. */
    method Iterate(staged: Staged, turn: Turn, ghost at: Phase) returns (r: Progress)
      requires Usable(plan, staged) && InProgress(plan, staged, c, at)
      modifies this
      ensures r.Stuck? <==> (2 <= Index(at) <= 5 && !EndsInNewline(plan.sourceCa))
      ensures r.Stuck? ==> c == old(c).(agents := c.agents) && InProgress(plan, staged, c, at)
      ensures r.Cut? ==>
                !Steady(turn) && Resumable(plan, c) && c.journal == Some(staged) && ReachedFrom(plan, staged, c, at)
      ensures r.Moved? ==> at != Target && InProgress(plan, staged, c, Following(at))
      ensures r.Moved? && at in {OverlapOldAgent, PrunedOldAgent, PrunedNewAgentHeld} ==> AllRolled(c)
      ensures r.Finished? ==> at == Target && Completed(plan, staged, c)
      ensures 3 <= Index(at) <= 6 ==> forall n :: IsHeld(old(c), n) ==> IsHeld(c, n)
    {
      Live(turn.before, staged, at);
      ObservesOwn(plan, staged, c, at);
      var phase := Observe(plan, staged, c);
      if phase.None? {
        return Stuck;
      }
      if turn.fault == BeforeChange {
        return Cut;
      }
      if phase.value == Target {
        r := Finish(staged, turn);
        return;
      }
      r := Change(staged, turn, phase.value);
    }

    /** The change of a phase, with the waits before and after it. */
    method Change(staged: Staged, turn: Turn, phase: Phase) returns (r: Progress)
      requires Usable(plan, staged) && InProgress(plan, staged, c, phase) && phase != Target
      modifies this
      ensures r.Cut? || r.Moved?
      ensures r.Cut? ==> !Steady(turn) && c.journal == Some(staged) && c.staged == Some(staged)
      ensures r.Cut? ==> Checkpoint(plan, staged, c, phase) || Checkpoint(plan, staged, c, Following(phase))
      ensures r.Moved? ==> InProgress(plan, staged, c, Following(phase))
      ensures r.Moved? && phase in {OverlapOldAgent, PrunedOldAgent, PrunedNewAgentHeld} ==> AllRolled(c)
      ensures 3 <= Index(phase) <= 6 ==> forall n :: IsHeld(old(c), n) ==> IsHeld(c, n)
    {
      if phase == ServingSwitched {
        var observed := Await(staged, turn, false, false, phase);
        if !observed {
          return Cut;
        }
      }
      CheckpointAdvances(plan, staged, c, phase, Following(phase));
      c := Effect(plan, staged, DerivedFrom(plan, staged), c, phase);
      if turn.fault == AfterChange {
        return Cut;
      }
      if phase in {OverlapOldAgent, PrunedOldAgent, PrunedNewAgentHeld} {
        var done := Await(staged, turn, true, phase == PrunedNewAgentHeld, Following(phase));
        return if done then Moved else Cut;
      }
      return Moved;
    }

    /** At the target: wait for fresh capability, then clean up. */
    method Finish(staged: Staged, turn: Turn) returns (r: Progress)
      requires Usable(plan, staged) && InProgress(plan, staged, c, Target)
      modifies this
      ensures r.Cut? || r.Finished?
      ensures r.Cut? ==>
                !Steady(turn) && Resumable(plan, c) && c.journal == Some(staged) && ReachedFrom(plan, staged, c, Target)
      ensures r.Finished? ==> Completed(plan, staged, c)
    {
      var ready := Await(staged, turn, false, true, Target);
      if !ready {
        return Cut;
      }
      c := c.(staged := None);
      if turn.fault == AfterChange {
        return Cut;
      }
      c := c.(journal := None);
      return Finished;
    }

    /** The phase loop. Uninterrupted, it completes within nine iterations exactly
        when the source CA ends in a newline or is no longer needed; otherwise it
        leaves a checkpoint no earlier than the one it found. */
    method Advance(staged: Staged, turns: seq<Turn>, ghost start: Phase) returns (ok: bool, iterations: nat)
      requires Usable(plan, staged) && InProgress(plan, staged, c, start)
      modifies this
      ensures ok ==> Completed(plan, staged, c)
      ensures !ok ==> Resumable(plan, c) && c.journal == Some(staged) && ReachedFrom(plan, staged, c, start)
      ensures ok ==> EndsInNewline(plan.sourceCa) || Index(start) >= 6
      ensures (EndsInNewline(plan.sourceCa) || Index(start) >= 6) && Uninterrupted(turns) ==> ok
      ensures ok ==> iterations <= 9 - Index(start)
    {
      ghost var at := start;
      iterations := 0;
      while iterations < MAX_ATTEMPTS
        invariant InProgress(plan, staged, c, at)
        invariant Index(at) == Index(start) + iterations
        invariant Index(start) < 6 <= Index(at) ==> EndsInNewline(plan.sourceCa)
      {
        var turn := if iterations < |turns| then turns[iterations] else STEADY;
        var r := Iterate(staged, turn, at);
        if r.Stuck? {
          return false, iterations;
        }
        iterations := iterations + 1;
        if !r.Moved? {
          return r.Finished?, iterations;
        }
        at := Following(at);
      }
      ok := false;
    }

    /** One invocation of the tool. `generated` is the identity it would create and
        `setup` where staging and journaling are cut short. */
    method Apply(generated: Staged, setup: Fault, turns: seq<Turn>) returns (ok: bool)
      requires Usable(plan, generated) && Resumable(plan, c)
      modifies this
      ensures if ok then Completed(plan, Identity(old(c), generated), c) else Resumable(plan, c)
      ensures EndsInNewline(plan.sourceCa) && setup == NoFault && Uninterrupted(turns) ==> ok
    {
      if c.journal.Some? && c.staged.None? {
        if !CompletedWithoutStaged(plan, c.journal.value, c) {
          return false;
        }
        c := c.(journal := None);
        return true;
      }
      var staged := Identity(c, generated);
      ghost var start := Source;
      if c.journal.None? {
        if !SourceUnchanged(plan, c) || setup == BeforeChange {
          return false;
        }
        c := c.(staged := Some(staged));
        if setup == AfterChange {
          return false;
        }
        c := c.(journal := Some(staged));
      } else {
        start :| Checkpoint(plan, staged, c, start);
      }
      var iterations;
      ok, iterations := Advance(staged, turns, start);
    }
  }

  function Following(phase: Phase): (next: Phase)
    requires phase != Target
    ensures Index(next) == Index(phase) + 1
  {
    match phase
    case Source => OverlapCAOnly case OverlapCAOnly => OverlapOldAgent case OverlapOldAgent => OverlapNewAgent
    case OverlapNewAgent => ServingSwitched case ServingSwitched => PrunedTLSOnly case PrunedTLSOnly => PrunedOldAgent
    case PrunedOldAgent => PrunedNewAgentHeld case PrunedNewAgentHeld => Target
  }
}
