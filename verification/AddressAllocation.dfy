/** Overlay address reservation, internal/binding/allocation.go: a wrap-around
    probe over atomically created reservation objects, one gateway at a time.
    Object names and identities are hashes, taken as injective, so a reservation
    is keyed by its address and its identity is its Pod. */
module AddressAllocation {
  import opened Common
  import opened Modular

  datatype ReservationState = Active | Quarantined

  datatype Reservation = Reservation(podUid: Uid, address: nat, state: ReservationState)

  /** An IPv4 pool: masked base address and prefix length. */
  datatype Pool = Pool(base: nat, bits: nat)

  datatype Outcome = Granted(address: nat, recovered: bool) | Exhausted | IdentityQuarantined | UnsafePool | Failed

  datatype Result = Result(store: map<nat, Reservation>, outcome: Outcome)

  function PowerOf2(k: nat): nat {
    if k == 0 then 1 else 2 * PowerOf2(k - 1)
  }

  predicate SafePool(p: Pool) {
    16 <= p.bits <= 29
  }

  function Hosts(p: Pool): nat
    requires SafePool(p)
  {
    PowerOf2(32 - p.bits)
  }

  lemma {:induction false} PowerOf2AtLeast8(k: nat)
    requires k >= 3
    ensures PowerOf2(k) >= 8
  {
    if k > 3 {
      PowerOf2AtLeast8(k - 1);
    }
  }

  /** All but the network, the gateway and the broadcast address. */
  function Usable(p: Pool): (n: nat)
    requires SafePool(p)
    ensures n >= 5
  {
    PowerOf2AtLeast8(32 - p.bits);
    Hosts(p) - 3
  }

  function Candidate(p: Pool, start: nat, attempt: nat): nat
    requires SafePool(p)
  {
    p.base + 2 + (start + attempt) % Usable(p)
  }

  predicate Matches(r: Reservation, podUid: Uid, address: nat) {
    r == Reservation(podUid, address, Active)
  }

  predicate HasQuarantined(store: map<nat, Reservation>, podUid: Uid) {
    exists a :: a in store && store[a].podUid == podUid && store[a].state == Quarantined
  }

  /** How the API calls of one attempt go. A create may fail, its reservation
      written or not; on a conflict the other reservation may have been deleted
      before it is read, or the read may fail. */
  datatype Call = Works | CreateFails(committed: bool) | Vanishes | ReadFails

  function FirstOf(calls: seq<Call>): Call {
    if calls == [] then Works else calls[0]
  }

  function RestOf(calls: seq<Call>): seq<Call> {
    if calls == [] then [] else calls[1..]
  }

  /** The probe from one attempt on. A vanished conflict is retried in place, but
      at the first position the source's counter has nothing to step back from
      and the probe moves on. */
  function Probe(store: map<nat, Reservation>, p: Pool, start: nat, podUid: Uid, attempt: nat, calls: seq<Call>): Result
    requires SafePool(p)
    decreases |calls|, Usable(p) - attempt
  {
    if attempt >= Usable(p) then Result(store, Exhausted)
    else
      var a := Candidate(p, start, attempt);
      var call := FirstOf(calls);
      if call.CreateFails? then
        Result(if call.committed && a !in store then store[a := Reservation(podUid, a, Active)] else store, Failed)
      else if a !in store then Result(store[a := Reservation(podUid, a, Active)], Granted(a, false))
      else if call.Vanishes? then
        Probe(store - {a}, p, start, podUid, if attempt == 0 then 1 else attempt, RestOf(calls))
      else if call.ReadFails? then Result(store, Failed)
      else if Matches(store[a], podUid, a) then Result(store, Granted(a, true))
      else Probe(store, p, start, podUid, attempt + 1, RestOf(calls))
  }

  /** `listed` says whether the list of reservations could be read. */
  function Reserved(
    store: map<nat, Reservation>, p: Pool, start: nat, podUid: Uid, listed: bool, calls: seq<Call>): Result {
    if !SafePool(p) then Result(store, UnsafePool)
    else if !listed then Result(store, Failed)
    else if HasQuarantined(store, podUid) then Result(store, IdentityQuarantined)
    else Probe(store, p, start, podUid, 0, calls)
  }

  class Allocator {
    var store: map<nat, Reservation>

    constructor (store: map<nat, Reservation>)
      ensures this.store == store
    {
      this.store := store;
    }

    /** `start` is the hash of the Pod UID modulo the pool size. It always
        terminates: only finitely many conflicts vanish. */
    method Reserve(p: Pool, start: nat, podUid: Uid, listed: bool, calls: seq<Call>) returns (outcome: Outcome)
      modifies this
      ensures Result(store, outcome) == Reserved(old(store), p, start, podUid, listed, calls)
    {
      if !SafePool(p) {
        return UnsafePool;
      }
      if !listed {
        return Failed;
      }
      if HasQuarantined(store, podUid) {
        return IdentityQuarantined;
      }
      var usable := Usable(p);
      var attempt, rest := 0, calls;
      while attempt < usable
        invariant attempt <= usable
        invariant Probe(store, p, start, podUid, attempt, rest) == Probe(old(store), p, start, podUid, 0, calls)
        decreases |rest|, usable - attempt
      {
        var a := p.base + 2 + (start + attempt) % usable;
        var call := FirstOf(rest);
        if a !in store && (call.CreateFails? ==> call.committed) {
          store := store[a := Reservation(podUid, a, Active)];
          return if call.CreateFails? then Failed else Granted(a, false);
        }
        if call.CreateFails? {
          return Failed;
        }
        if call.Vanishes? {
          store := store - {a};
          if attempt > 0 {
            attempt := attempt - 1;
          }
        } else if call.ReadFails? {
          return Failed;
        } else if Matches(store[a], podUid, a) {
          return Granted(a, true);
        }
        attempt := attempt + 1;
        rest := RestOf(rest);
      }
      return Exhausted;
    }
  }

  // ---- The probe ----

  predicate InPool(p: Pool, a: nat)
    requires SafePool(p)
  {
    p.base + 1 < a < p.base + Hosts(p) - 1
  }

  /** Every candidate is inside the pool and is not the network, the gateway or
      the broadcast address. */
  lemma CandidateInPool(p: Pool, start: nat, attempt: nat)
    requires SafePool(p)
    ensures InPool(p, Candidate(p, start, attempt))
  {
  }

  function AttemptFor(p: Pool, start: nat, a: nat): nat
    requires SafePool(p) && InPool(p, a)
  {
    (a - p.base - 2 + Usable(p) - start % Usable(p)) % Usable(p)
  }

  /** The probe visits every usable address, each exactly once. */
  lemma ProbeVisitsEachOnce(p: Pool, start: nat, a: nat)
    requires SafePool(p) && InPool(p, a)
    ensures AttemptFor(p, start, a) < Usable(p) && Candidate(p, start, AttemptFor(p, start, a)) == a
    ensures forall k :: 0 <= k < Usable(p) && Candidate(p, start, k) == a ==> k == AttemptFor(p, start, a)
  {
    var m := Usable(p);
    var t, s, k := a - p.base - 2, start % m, AttemptFor(p, start, a);
    assert (start + k) % m == t by {
      ShiftBack(start, t, m);
    }
    forall j | 0 <= j < m && Candidate(p, start, j) == a ensures j == k {
      if j < k {
        ModularStep(start, j, k, m);
      } else if k < j {
        ModularStep(start, k, j, m);
      }
    }
  }

  lemma LaterCandidates(p: Pool, start: nat, attempt: nat)
    requires SafePool(p) && attempt < Usable(p)
    ensures forall k :: attempt < k < Usable(p) ==> Candidate(p, start, k) != Candidate(p, start, attempt)
  {
    forall k | attempt < k < Usable(p) ensures Candidate(p, start, k) != Candidate(p, start, attempt) {
      ModularStep(start, attempt, k, Usable(p));
    }
  }

  // ---- What an answer means ----

  predicate Changed(store: map<nat, Reservation>, after: map<nat, Reservation>, a: nat) {
    a in after && (a in store ==> after[a] != store[a])
  }

  /** A grant is inside the pool and recorded as this Pod's active reservation.
      A call writes one reservation at most, of this Pod, and only if it grants it
      or fails; it overwrites nobody else's. */
  lemma {:induction false} GrantIsRecorded(
    store: map<nat, Reservation>, p: Pool, start: nat, podUid: Uid, attempt: nat, calls: seq<Call>)
    requires SafePool(p)
    ensures var r := Probe(store, p, start, podUid, attempt, calls);
            && (r.outcome.Granted? ==>
                  && InPool(p, r.outcome.address) && r.outcome.address in r.store
                  && Matches(r.store[r.outcome.address], podUid, r.outcome.address))
            && (forall a :: Changed(store, r.store, a) ==>
                  && InPool(p, a) && Matches(r.store[a], podUid, a)
                  && (r.outcome.Failed? || r.outcome == Granted(a, false)))
            && (forall a, b :: Changed(store, r.store, a) && Changed(store, r.store, b) ==> a == b)
    decreases |calls|, Usable(p) - attempt
  {
    if attempt < Usable(p) {
      CandidateInPool(p, start, attempt);
      var a, call := Candidate(p, start, attempt), FirstOf(calls);
      if !call.CreateFails? && a in store {
        if call.Vanishes? {
          GrantIsRecorded(store - {a}, p, start, podUid, if attempt == 0 then 1 else attempt, RestOf(calls));
          var after := Probe(store, p, start, podUid, attempt, calls).store;
          assert forall b :: Changed(store, after, b) ==> Changed(store - {a}, after, b);
        } else if !call.ReadFails? && !Matches(store[a], podUid, a) {
          GrantIsRecorded(store, p, start, podUid, attempt + 1, RestOf(calls));
        }
      }
    }
  }

  /** The probe leaves alone what is not at one of its remaining positions. */
  lemma {:induction false} Kept(
    store: map<nat, Reservation>, p: Pool, start: nat, podUid: Uid, attempt: nat, calls: seq<Call>, a: nat)
    requires SafePool(p)
    requires forall k :: attempt <= k < Usable(p) ==> Candidate(p, start, k) != a
    ensures var after := Probe(store, p, start, podUid, attempt, calls).store;
            (a in after <==> a in store) && (a in store ==> after[a] == store[a])
    decreases |calls|, Usable(p) - attempt
  {
    if attempt < Usable(p) && Candidate(p, start, attempt) in store {
      var b, call := Candidate(p, start, attempt), FirstOf(calls);
      if call.Vanishes? {
        Kept(store - {b}, p, start, podUid, if attempt == 0 then 1 else attempt, RestOf(calls), a);
      } else if call.Works? && !Matches(store[b], podUid, b) {
        Kept(store, p, start, podUid, attempt + 1, RestOf(calls), a);
      }
    }
  }

  /** From a later position, exhaustion means every remaining candidate is taken. */
  lemma {:induction false} ExhaustedFrom(
    store: map<nat, Reservation>, p: Pool, start: nat, podUid: Uid, attempt: nat, calls: seq<Call>, k: nat)
    requires SafePool(p) && 1 <= attempt <= k < Usable(p)
    requires Probe(store, p, start, podUid, attempt, calls).outcome.Exhausted?
    ensures Candidate(p, start, k) in Probe(store, p, start, podUid, attempt, calls).store
    decreases |calls|, Usable(p) - attempt
  {
    var a := Candidate(p, start, attempt);
    if FirstOf(calls).Vanishes? {
      ExhaustedFrom(store - {a}, p, start, podUid, attempt, RestOf(calls), k);
    } else if attempt < k {
      ExhaustedFrom(store, p, start, podUid, attempt + 1, RestOf(calls), k);
    } else {
      LaterCandidates(p, start, attempt);
      Kept(store, p, start, podUid, attempt + 1, RestOf(calls), a);
    }
  }

  /** A pool reported exhausted with its first candidate free. */
  lemma FreeYetExhausted()
    ensures var p := Pool(0, 29);
            var store := map a | a in {2, 3, 4, 5, 6} :: Reservation(7, a, Active);
            var r := Reserved(store, p, 0, 1, true, [Vanishes]);
            r.outcome.Exhausted? && InPool(p, 2) && 2 !in r.store
  {
    var p := Pool(0, 29);
    var store := map a | a in {2, 3, 4, 5, 6} :: Reservation(7, a, Active);
    assert PowerOf2(3) == 8 by { assert PowerOf2(1) == 2; }
    var after := store - {2};
    assert Probe(after, p, 0, 1, 5, []).outcome.Exhausted?;
    assert Probe(after, p, 0, 1, 4, []) == Probe(after, p, 0, 1, 5, []);
    assert Probe(after, p, 0, 1, 3, []) == Probe(after, p, 0, 1, 4, []);
    assert Probe(after, p, 0, 1, 2, []) == Probe(after, p, 0, 1, 3, []);
    assert Probe(after, p, 0, 1, 1, []) == Probe(after, p, 0, 1, 2, []);
    assert RestOf([Vanishes]) == [];
  }

  /** Exhaustion is reported only when every usable address is taken, except that
      the first candidate is free exactly when its conflict vanished. */
  lemma ExhaustedMeansFull(
    store: map<nat, Reservation>, p: Pool, start: nat, podUid: Uid, listed: bool, calls: seq<Call>, a: nat)
    requires SafePool(p) && InPool(p, a)
    requires Reserved(store, p, start, podUid, listed, calls).outcome.Exhausted?
    ensures a !in Reserved(store, p, start, podUid, listed, calls).store <==>
            a == Candidate(p, start, 0) && FirstOf(calls).Vanishes?
  {
    ProbeVisitsEachOnce(p, start, a);
    var k := AttemptFor(p, start, a);
    var first := Candidate(p, start, 0);
    var after := if FirstOf(calls).Vanishes? then store - {first} else store;
    assert Reserved(store, p, start, podUid, listed, calls) == Probe(after, p, start, podUid, 1, RestOf(calls));
    if k >= 1 {
      ExhaustedFrom(after, p, start, podUid, 1, RestOf(calls), k);
    } else {
      LaterCandidates(p, start, 0);
      Kept(after, p, start, podUid, 1, RestOf(calls), first);
    }
  }

  // ---- Asking again ----

  /** The call took address `a` for the Pod: it granted it, or failed although
      its create was committed. */
  predicate Took(store: map<nat, Reservation>, r: Result, podUid: Uid, a: nat) {
    && a in r.store && Matches(r.store[a], podUid, a)
    && ((r.outcome.Granted? && r.outcome.address == a) || (r.outcome.Failed? && Changed(store, r.store, a)))
  }

  predicate Extends(store: map<nat, Reservation>, later: map<nat, Reservation>) {
    forall a :: a in store ==> a in later && later[a] == store[a]
  }

  /** From a later position on, asking again finds the address that was taken. */
  lemma {:induction false} SameFrom(
    store: map<nat, Reservation>, later: map<nat, Reservation>, p: Pool, start: nat, podUid: Uid, attempt: nat,
    calls: seq<Call>, a: nat)
    requires SafePool(p) && 1 <= attempt
    requires Took(store, Probe(store, p, start, podUid, attempt, calls), podUid, a)
    requires Extends(Probe(store, p, start, podUid, attempt, calls).store, later)
    ensures Probe(later, p, start, podUid, attempt, []) == Result(later, Granted(a, true))
    decreases |calls|, Usable(p) - attempt
  {
    var c, call := Candidate(p, start, attempt), FirstOf(calls);
    if call.Vanishes? && c in store {
      SameFrom(store - {c}, later, p, start, podUid, attempt, RestOf(calls), a);
    } else if call.Works? && c in store && !Matches(store[c], podUid, c) {
      SameFrom(store, later, p, start, podUid, attempt + 1, RestOf(calls), a);
      LaterCandidates(p, start, attempt);
      Kept(store, p, start, podUid, attempt + 1, RestOf(calls), c);
    }
  }

  /** Every candidate before position k is there, and none of them is this Pod's. */
  predicate OthersBefore(store: map<nat, Reservation>, p: Pool, start: nat, podUid: Uid, attempt: nat, k: nat)
    requires SafePool(p)
  {
    forall j :: attempt <= j < k ==>
      var c := Candidate(p, start, j);
      c in store && !Matches(store[c], podUid, c)
  }

  lemma {:induction false} ProbeReaches(
    store: map<nat, Reservation>, p: Pool, start: nat, podUid: Uid, attempt: nat, k: nat, a: nat)
    requires SafePool(p) && attempt <= k < Usable(p) && Candidate(p, start, k) == a
    requires a in store && Matches(store[a], podUid, a)
    ensures Probe(store, p, start, podUid, attempt, []) == Result(store, Granted(a, true)) <==>
            OthersBefore(store, p, start, podUid, attempt, k)
    decreases k - attempt
  {
    if attempt < k {
      var c := Candidate(p, start, attempt);
      LaterCandidates(p, start, attempt);
      if c in store && !Matches(store[c], podUid, c) {
        ProbeReaches(store, p, start, podUid, attempt + 1, k, a);
      }
    }
  }

  /** A controller that took an address, even by a create reported failed, and asks again
      later, with every call working, gets the same address if and only if its identity
      has not been quarantined and every candidate before that address is another's. */
  lemma SameAfterCrash(
    store: map<nat, Reservation>, later: map<nat, Reservation>, p: Pool, start: nat, podUid: Uid, calls: seq<Call>,
    a: nat)
    requires SafePool(p) && Took(store, Probe(store, p, start, podUid, 0, calls), podUid, a)
    requires a in later && Matches(later[a], podUid, a)
    ensures InPool(p, a)
    ensures Reserved(later, p, start, podUid, true, []) == Result(later, Granted(a, true)) <==>
            !HasQuarantined(later, podUid) && OthersBefore(later, p, start, podUid, 0, AttemptFor(p, start, a))
  {
    GrantIsRecorded(store, p, start, podUid, 0, calls);
    ProbeVisitsEachOnce(p, start, a);
    ProbeReaches(later, p, start, podUid, 0, AttemptFor(p, start, a), a);
  }

  /** The first candidate was passed over because its conflict vanished. */
  predicate PassedOver(store: map<nat, Reservation>, first: nat, calls: seq<Call>) {
    first in store && FirstOf(calls).Vanishes?
  }

  /** If nothing was released in between, that fails only at the first candidate: the same
      address is found if and only if that one was not passed over or is now another's. */
  lemma SameIfNothingReleased(
    store: map<nat, Reservation>, later: map<nat, Reservation>, p: Pool, start: nat, podUid: Uid, calls: seq<Call>,
    a: nat)
    requires SafePool(p)
    requires Took(store, Probe(store, p, start, podUid, 0, calls), podUid, a)
    requires Extends(Probe(store, p, start, podUid, 0, calls).store, later)
    ensures var first := Candidate(p, start, 0);
            Probe(later, p, start, podUid, 0, []) == Result(later, Granted(a, true)) <==>
            (PassedOver(store, first, calls) ==> first in later && !Matches(later[first], podUid, first))
  {
    var first, call := Candidate(p, start, 0), FirstOf(calls);
    LaterCandidates(p, start, 0);
    if PassedOver(store, first, calls) {
      SameFrom(store - {first}, later, p, start, podUid, 1, RestOf(calls), a);
      Kept(store - {first}, p, start, podUid, 1, RestOf(calls), first);
    } else if call.Works? && first in store && !Matches(store[first], podUid, first) {
      SameFrom(store, later, p, start, podUid, 1, RestOf(calls), a);
      Kept(store, p, start, podUid, 1, RestOf(calls), first);
    }
  }

  /** One Pod with two addresses: the second call takes the first candidate, which the
      first call had passed over, or which another Pod has released since. */
  lemma AskingAgainTakesSecond(vanishes: bool)
    ensures var p, others := Pool(0, 29), map[2 := Reservation(7, 2, Active)];
            var one := Reserved(others, p, 0, 1, true, if vanishes then [Vanishes] else []);
            var between := one.store - {2};
            var two := Reserved(between, p, 0, 1, true, []);
            && one.outcome == Granted(3, false) && (vanishes ==> between == one.store)
            && two.outcome == Granted(2, false) && 3 in two.store
  {
    var p, others := Pool(0, 29), map[2 := Reservation(7, 2, Active)];
    assert PowerOf2(3) == 8 by { assert PowerOf2(1) == 2; }
    assert !HasQuarantined(others, 1);
    assert others - {2} == map[];
    assert Probe(map[], p, 0, 1, 1, []) == Result(map[3 := Reservation(1, 3, Active)], Granted(3, false));
    assert Probe(others, p, 0, 1, 1, []) == Result(others[3 := Reservation(1, 3, Active)], Granted(3, false));
    assert RestOf([Vanishes]) == [] && RestOf([]) == [];
    var between := map[3 := Reservation(1, 3, Active)];
    assert others[3 := Reservation(1, 3, Active)] - {2} == between && between - {2} == between;
    assert !HasQuarantined(between, 1);
  }
}
