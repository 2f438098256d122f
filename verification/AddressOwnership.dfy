/** Who holds an overlay address while many controllers' API calls interleave:
    creates from reservation and repair, and the two-call release and quarantine
    of internal/binding/allocation.go under the deletion logic of
    internal/controller/vpnworkloadbinding_controller.go. */
module AddressOwnership {
  import opened Common
  import opened AddressAllocation

  /** The deleted binding as its worker reads it. `agentNode` is NO_UID when no
      agent has reported. */
  datatype Binding = Binding(
    podUid: Uid, gatewayUid: Uid, nodeName: Uid, address: nat, deletedAt: int,
    appliedGeneration: int, observedPodUid: Uid, observedGatewayUid: Uid, agentNode: Uid, observedAt: int)

  const OBSERVATION_TTL := 30_000_000_000
  const CLEANUP_TIMEOUT := 600_000_000_000

  /** withdrawalConfirmed: a fresh report of the exact Pod, gateway and node that
      nothing is applied. */
  predicate WithdrawalConfirmed(b: Binding, now: int) {
    && b.appliedGeneration == 0 && b.observedPodUid == b.podUid && b.observedGatewayUid == b.gatewayUid
    && b.agentNode != NO_UID && b.agentNode == b.nodeName && 0 <= now - b.observedAt < OBSERVATION_TTL
  }

  /** The second call of a deletion, with what its worker read. */
  datatype Call = Releasing(binding: Binding, since: int) | Quarantining(binding: Binding)

  /** `workers` are between reading a matching reservation and acting on it; `late` are
      calls whose workers are gone and that may still reach the API server. */
  datatype State = State(store: map<nat, Reservation>, workers: map<Uid, Call>, late: set<Call>)

  datatype Answer = Applied | NotApplied | Lost

  datatype Event =
    | Create(podUid: Uid, address: nat)
    | DeletionPass(binding: Binding, now: int)
    | Act(podUid: Uid, answer: Answer)
    | Crash(podUid: Uid)
    | Arrive(call: Call)

  /** The first call of reconcileDeletion: read for a release, or create-or-read
      for a quarantine once the deadline has passed. */
  function Pass(s: State, b: Binding, now: int): State {
    var held := b.address in s.store && Matches(s.store[b.address], b.podUid, b.address);
    if WithdrawalConfirmed(b, now) then
      if held then s.(workers := s.workers[b.podUid := Releasing(b, now)]) else s
    else if now < b.deletedAt + CLEANUP_TIMEOUT then s
    else if b.address !in s.store then
      s.(store := s.store[b.address := Reservation(b.podUid, b.address, Quarantined)])
    else if held then s.(workers := s.workers[b.podUid := Quarantining(b)])
    else s
  }

  /** The second call: an unconditional delete or patch by name. */
  function Made(store: map<nat, Reservation>, call: Call): map<nat, Reservation> {
    var a := call.binding.address;
    if call.Releasing? then store - {a}
    else if a in store then store[a := store[a].(state := Quarantined)]
    else store
  }

  /** One worker per binding: a Pod's deletion is not started while it runs. */
  function Next(s: State, e: Event): State {
    match e
    case Create(p, a) => if a in s.store then s else s.(store := s.store[a := Reservation(p, a, Active)])
    case DeletionPass(b, now) => if b.podUid in s.workers then s else Pass(s, b, now)
    case Act(p, answer) =>
      if p !in s.workers then s
      else
        var store := if answer.Applied? then Made(s.store, s.workers[p]) else s.store;
        State(store, s.workers - {p}, if answer.Lost? then s.late + {s.workers[p]} else s.late)
    case Crash(p) => s.(workers := s.workers - {p})
    case Arrive(call) => if call in s.late then s.(store := Made(s.store, call), late := s.late - {call}) else s
  }

  ghost predicate IsRun(trace: seq<State>, events: seq<Event>) {
    && |trace| == |events| + 1 && trace[0] == State(map[], map[], {})
    && forall i :: 0 <= i < |events| ==> trace[i + 1] == Next(trace[i], events[i])
  }

  // ---- What every run keeps ----

  predicate Confirmed(call: Call) {
    call.Releasing? ==> WithdrawalConfirmed(call.binding, call.since)
  }

  /** Every call is its own Pod's, and a release was started on a confirmed withdrawal. */
  ghost predicate Sound(s: State) {
    && (forall a :: a in s.store ==> s.store[a].address == a)
    && (forall p :: p in s.workers ==> s.workers[p].binding.podUid == p && Confirmed(s.workers[p]))
    && (forall call :: call in s.late ==> Confirmed(call))
  }

  lemma StepKeepsSound(s: State, e: Event)
    requires Sound(s)
    ensures Sound(Next(s, e))
  {
  }

  lemma {:induction false} Reachable(trace: seq<State>, events: seq<Event>, n: nat)
    requires IsRun(trace, events) && n <= |events|
    ensures Sound(trace[n])
  {
    if n > 0 {
      Reachable(trace, events, n - 1);
      StepKeepsSound(trace[n - 1], events[n - 1]);
    }
  }

  // ---- Who an address is taken from ----

  /** The call that reaches the store in this step. */
  function Reaching(s: State, e: Event): Option<Call> {
    match e
    case Act(p, answer) => if p in s.workers && answer.Applied? then Some(s.workers[p]) else None
    case Arrive(call) => if call in s.late then Some(call) else None
    case _ => None
  }

  /** The address a is released by its own holder p, on a confirmed withdrawal. */
  ghost predicate ConfirmedRelease(s: State, e: Event, p: Uid, a: nat) {
    var call := Reaching(s, e);
    && call.Some? && call.value.Releasing? && call.value.binding.address == a && call.value.binding.podUid == p
    && WithdrawalConfirmed(call.value.binding, call.value.since)
    && a in s.store && Matches(s.store[a], p, a)
  }

  /** It is quarantined by its own holder p. */
  ghost predicate OwnQuarantine(s: State, e: Event, p: Uid, a: nat) {
    var call := Reaching(s, e);
    && call.Some? && call.value.Quarantining? && call.value.binding.address == a && call.value.binding.podUid == p
    && a in Next(s, e).store && Next(s, e).store[a] == Reservation(p, a, Quarantined)
  }

  /** Every reservation stays as it is, or is released or quarantined by its holder. */
  ghost predicate KeepsHolders(s: State, e: Event) {
    forall a :: a in s.store ==>
      || (a in Next(s, e).store && Next(s, e).store[a] == s.store[a])
      || ConfirmedRelease(s, e, s.store[a].podUid, a)
      || OwnQuarantine(s, e, s.store[a].podUid, a)
  }

  /** A call meets another Pod's active reservation, or a delete meets a quarantine. */
  predicate Misdirected(s: State, e: Event) {
    var call := Reaching(s, e);
    && call.Some? && call.value.binding.address in s.store
    && var r := s.store[call.value.binding.address];
       (r.state == Active && r.podUid != call.value.binding.podUid) || (r.state == Quarantined && call.value.Releasing?)
  }

  /** A step treats every reservation as it should, if and only if it is not
      misdirected. */
  lemma StepKeepsHolders(s: State, e: Event)
    requires Sound(s)
    ensures KeepsHolders(s, e) <==> !Misdirected(s, e)
  {
    var call := Reaching(s, e);
    if call.Some? && call.value.binding.address in s.store {
      var a := call.value.binding.address;
      assert Confirmed(call.value);
      if Misdirected(s, e) {
        assert !(a in Next(s, e).store && Next(s, e).store[a] == s.store[a]);
      }
    }
  }

  ghost predicate NoneMisdirected(trace: seq<State>, events: seq<Event>, i: nat, n: nat)
    requires n <= |events| < |trace|
  {
    forall k :: i <= k < n ==> !Misdirected(trace[k], events[k])
  }

  ghost predicate AllKeepHolders(trace: seq<State>, events: seq<Event>, i: nat, n: nat)
    requires n <= |events| < |trace|
  {
    forall k :: i <= k < n ==> KeepsHolders(trace[k], events[k])
  }

  /** The same over any stretch of any run. */
  lemma HoldersKeptExactly(trace: seq<State>, events: seq<Event>, i: nat, n: nat)
    requires IsRun(trace, events) && n <= |events|
    ensures AllKeepHolders(trace, events, i, n) <==> NoneMisdirected(trace, events, i, n)
  {
    forall k: nat | i <= k < n ensures KeepsHolders(trace[k], events[k]) <==> !Misdirected(trace[k], events[k]) {
      Reachable(trace, events, k);
      StepKeepsHolders(trace[k], events[k]);
    }
  }

  lemma StepKeepsHolder(s: State, e: Event, a: nat)
    requires Sound(s) && a in s.store && !Misdirected(s, e)
    ensures var next := Next(s, e);
            || (a in next.store && next.store[a].podUid == s.store[a].podUid
                && (s.store[a].state == Quarantined ==> next.store[a] == s.store[a]))
            || (ConfirmedRelease(s, e, s.store[a].podUid, a) && s.store[a].state == Active)
  {
    StepKeepsHolders(s, e);
  }

  /** Without misdirected calls an address keeps its holder until that holder's own
      release, started on a fresh and exact withdrawal confirmation, deletes it. */
  lemma {:induction false} HolderChangesOnlyByRelease(trace: seq<State>, events: seq<Event>, a: nat, i: nat, n: nat)
    requires IsRun(trace, events) && i <= n <= |events| && a in trace[i].store && NoneMisdirected(trace, events, i, n)
    ensures (a in trace[n].store && trace[n].store[a].podUid == trace[i].store[a].podUid)
            || exists k :: i <= k < n && ConfirmedRelease(trace[k], events[k], trace[i].store[a].podUid, a)
  {
    if i < n {
      HolderChangesOnlyByRelease(trace, events, a, i, n - 1);
      Reachable(trace, events, n - 1);
      if a in trace[n - 1].store {
        StepKeepsHolder(trace[n - 1], events[n - 1], a);
      }
    }
  }

  /** And a quarantined address stays quarantined for its Pod for ever: it is neither
      released nor granted again. */
  lemma {:induction false} QuarantineIsFinal(trace: seq<State>, events: seq<Event>, a: nat, i: nat, n: nat)
    requires IsRun(trace, events) && i <= n <= |events| && NoneMisdirected(trace, events, i, n)
    requires a in trace[i].store && trace[i].store[a].state == Quarantined
    ensures a in trace[n].store && trace[n].store[a] == trace[i].store[a]
  {
    if i < n {
      QuarantineIsFinal(trace, events, a, i, n - 1);
      Reachable(trace, events, n - 1);
      StepKeepsHolder(trace[n - 1], events[n - 1], a);
    }
  }

  // ---- Calls that are not late are never misdirected ----

  /** A started release or quarantine still finds its own active reservation. */
  ghost predicate FindsOwn(s: State) {
    forall p :: p in s.workers ==>
      var b := s.workers[p].binding;
      b.podUid == p && b.address in s.store && Matches(s.store[b.address], p, b.address)
  }

  lemma StepFindsOwn(s: State, e: Event)
    requires FindsOwn(s) && !e.Arrive?
    ensures FindsOwn(Next(s, e)) && !Misdirected(s, e)
  {
  }

  /** However the calls interleave, fail and crash: only one that arrives after its worker
      is gone can be misdirected. */
  lemma {:induction false} OnTimeIsDirected(trace: seq<State>, events: seq<Event>, n: nat)
    requires IsRun(trace, events) && n <= |events| && forall k :: 0 <= k < n ==> !events[k].Arrive?
    ensures FindsOwn(trace[n]) && NoneMisdirected(trace, events, 0, n)
  {
    if n > 0 {
      OnTimeIsDirected(trace, events, n - 1);
      StepFindsOwn(trace[n - 1], events[n - 1]);
    }
  }

  /** A delete that arrives late takes the address from the Pod that was given it since. */
  lemma LateDeleteTakesAddress()
    ensures var b := Binding(1, 5, 6, 9, 0, 0, 1, 5, 6, 0);
            var events :=
              [Create(1, 9), DeletionPass(b, 0), Act(1, Lost), DeletionPass(b, 0), Act(1, Applied), Create(2, 9),
                           Arrive(Releasing(b, 0))];
            var one, two := Reservation(1, 9, Active), Reservation(2, 9, Active);
            var call := Releasing(b, 0);
            var trace :=
              [State(map[], map[], {}), State(map[9 := one], map[], {}), State(map[9 := one], map[1 := call], {}),
                          State(map[9 := one], map[], {call}), State(map[9 := one], map[1 := call], {call}),
                          State(map[], map[], {call}), State(map[9 := two], map[], {call}), State(map[], map[], {})];
            IsRun(trace, events) && Misdirected(trace[6], events[6]) && !KeepsHolders(trace[6], events[6])
  {
    var b := Binding(1, 5, 6, 9, 0, 0, 1, 5, 6, 0);
    var call := Releasing(b, 0);
    var one, two := Reservation(1, 9, Active), Reservation(2, 9, Active);
    assert WithdrawalConfirmed(b, 0);
    assert map[1 := call] - {1} == map[] && map[9 := one] - {9} == map[] && map[9 := two] - {9} == map[];
    assert {call} - {call} == {} && {} + {call} == {call};
    assert Sound(State(map[9 := two], map[], {call}));
    StepKeepsHolders(State(map[9 := two], map[], {call}), Arrive(call));
  }
}
