/** Provider port reservations of one gateway, internal/portforward/allocation.go. A
    reservation is an API object named after its port. Reads come from a cache and may be
    old, deletes and patches go by name alone, and any call may fail. Times are
    nanoseconds. */
module ProviderPorts {
  import opened Common
  import opened Modular

  const FIRST := 49152
  const LAST := 65535
  const COUNT := LAST - FIRST + 1
  const SECOND := 1_000_000_000
  const MICROSECOND := 1_000
  const MAX_INT32 := 0x7fff_ffff

  /** A quarantine is stored as a renew time, in microseconds, and a duration. */
  datatype Reservation = Active(leaseUid: Uid) | Quarantine(leaseUid: Uid, renewTime: int, seconds: int)

  type Store = map<nat, Reservation>

  predicate Expired(r: Reservation, now: int) {
    r.Quarantine? && r.renewTime + r.seconds * SECOND <= now
  }

  predicate InRange(port: nat) {
    FIRST <= port <= LAST
  }

  function Candidate(start: nat, offset: nat): nat {
    FIRST + (start + offset) % COUNT
  }

  predicate Holds(store: Store, port: nat, leaseUid: Uid) {
    port in store && store[port].leaseUid == leaseUid
  }

  predicate OneActivePerLease(store: Store) {
    forall a, b :: a in store && b in store && store[a].Active? && store[a] == store[b] ==> a == b
  }

  function OwnPorts(store: Store, leaseUid: Uid): set<nat> {
    set p | p in store && store[p].leaseUid == leaseUid
  }

  // ---- The quarantine's duration ----

  /** A conversion to int32 keeps the low 32 bits. */
  function ToInt32(x: int): int {
    (x + 0x8000_0000) % 0x1_0000_0000 - 0x8000_0000
  }

  function CeilSeconds(duration: int): int {
    (duration + SECOND - 1) / SECOND
  }

  function QuarantineSeconds(duration: int): int {
    if ToInt32(CeilSeconds(duration)) < 1 then 1 else ToInt32(CeilSeconds(duration))
  }

  /** A stored time keeps its microseconds. */
  function Micro(time: int): int {
    time - time % MICROSECOND
  }

  function QuarantineOf(leaseUid: Uid, now: int, until: int): Reservation {
    Quarantine(leaseUid, Micro(now), QuarantineSeconds(until - now))
  }

  /** The seconds fit in 32 bits, and rounding them up gains at least what rounding the
      renew time down loses. */
  predicate Reaches(now: int, until: int) {
    CeilSeconds(until - now) <= MAX_INT32 && now % MICROSECOND <= CeilSeconds(until - now) * SECOND - (until - now)
  }

  /** Exactly when a quarantine lasts until the deadline it was asked for. */
  lemma QuarantineReaches(now: int, until: int)
    requires now < until
    ensures until <= Micro(now) + QuarantineSeconds(until - now) * SECOND <==> Reaches(now, until)
  {
    var d := until - now;
    var n := CeilSeconds(d);
    assert n >= 1 && (n - 1) * SECOND < d <= n * SECOND;
    if n > MAX_INT32 {
      assert ToInt32(n) <= MAX_INT32;
    }
  }

  /** A deadline 2^31 seconds ahead is stored as one second. */
  lemma OverflowedQuarantine()
    ensures QuarantineSeconds(0x8000_0000 * SECOND) == 1
  {
  }

  /** A quarantine of one whole second, asked for between two microseconds, ends early. */
  lemma TruncatedQuarantine()
    ensures Micro(500) + QuarantineSeconds(SECOND) * SECOND < 500 + SECOND && CeilSeconds(SECOND) <= MAX_INT32
  {
  }

  // ---- One pass ----

  predicate Swept(before: Store, after: Store, now: int) {
    && (forall p :: p in after ==> p in before && after[p] == before[p])
    && (forall p :: p in before && p !in after ==> Expired(before[p], now))
  }

  /** The listed reservations once all but `todo` have been looked at. */
  function Left(listed: Store, todo: set<nat>, now: int): Store {
    map p | p in listed && (p in todo || !Expired(listed[p], now)) :: listed[p]
  }

  lemma LeftIsSwept(listed: Store, todo: set<nat>, now: int)
    ensures Swept(listed, Left(listed, todo, now), now)
  {
  }

  /** The ports of those already looked at that are still taken. */
  function Occupied(listed: Store, todo: set<nat>, now: int): set<nat> {
    set p | p in listed && p !in todo && !Expired(listed[p], now)
  }

  lemma LeftStep(listed: Store, todo: set<nat>, p: nat, now: int)
    requires p in todo && p in listed
    ensures var left, expired := Left(listed, todo, now), Expired(listed[p], now);
            && Left(listed, todo - {p}, now) == (if expired then left - {p} else left)
            && Occupied(listed, todo - {p}, now) == Occupied(listed, todo, now) + (if expired then {} else {p})
  {
  }

  lemma LeftAll(listed: Store, now: int)
    ensures Left(listed, listed.Keys, now) == listed && Occupied(listed, listed.Keys, now) == {}
    ensures Left(listed, {}, now).Keys == Occupied(listed, {}, now)
  {
  }

  datatype Reply = Port(port: nat) | Exhausted | Failed

  /** The answer given on a swept store: the lease's own port, a new one at a port
      that holds nothing, or none when every port is taken. */
  ghost predicate Passed(swept: Store, after: Store, leaseUid: Uid, reply: Reply) {
    match reply
    case Port(p) =>
      || (after == swept && p in swept && swept[p] == Active(leaseUid))
      || (&& after == swept[p := Active(leaseUid)] && p !in swept && InRange(p)
          && forall q :: q in swept ==> swept[q] != Active(leaseUid))
    case Exhausted =>
      && after == swept && (forall q :: FIRST <= q <= LAST ==> q in swept)
      && forall q :: q in swept ==> swept[q] != Active(leaseUid)
    case Failed => after == swept || exists p :: Adds(swept, after, leaseUid, p)
  }

  predicate Adds(swept: Store, after: Store, leaseUid: Uid, p: nat) {
    InRange(p) && p !in swept && after == swept[p := Active(leaseUid)]
  }

  /** What a pass that reads the current store and is alone does, failing calls
      included. */
  ghost predicate ReservePass(before: Store, after: Store, leaseUid: Uid, reply: Reply, now: int) {
    exists swept :: Swept(before, swept, now) && Passed(swept, after, leaseUid, reply)
  }

  /** A call that is reported failed may have been committed all the same. */
  datatype Answer = Works | Fails(committed: bool)

  /** One API call: what others made of the store before it, what a cached read shows
      (None is the current store), and how it goes. */
  datatype Call = Call(others: Option<Store>, view: Option<Store>, answer: Answer)

  predicate Quiet(calls: seq<Call>) {
    forall i :: 0 <= i < |calls| ==> calls[i].others.None? && calls[i].view.None?
  }

  predicate Calm(calls: seq<Call>) {
    Quiet(calls) && forall i :: 0 <= i < |calls| ==> calls[i].answer.Works?
  }

  /** A change an allocator makes, with the store it changed. */
  datatype Move =
    | Removed(port: nat, before: Store)
    | Created(port: nat, before: Store)
    | Patched(port: nat, before: Store)

  /** What a reservation pass may change: ports its listing shows expired are removed, and
      a port that holds nothing is reserved. */
  predicate ReserveMove(m: Move, leaseUid: Uid, listed: Store, now: int) {
    match m
    case Removed(p, _) => p in listed && Expired(listed[p], now)
    case Created(p, before) => InRange(p) && p !in before
    case Patched(_, _) => false
  }

  ghost predicate ReserveMoves(moves: seq<Move>, start: nat, leaseUid: Uid, listed: Store, now: int) {
    forall i :: start <= i < |moves| ==> ReserveMove(moves[i], leaseUid, listed, now)
  }

  datatype CreateReply = Made | AlreadyExists | NotMade

  class ProviderPortAllocator {
    var store: Store
    var calls: seq<Call>
    ghost var moves: seq<Move>

    constructor (store: Store, calls: seq<Call>)
      ensures this.store == store && this.calls == calls && moves == []
    {
      this.store, this.calls, moves := store, calls, [];
    }

    /** The others act, then this call is made. */
    method Begin() returns (call: Call)
      modifies this`store, this`calls
      ensures Quiet(old(calls)) ==> Quiet(calls) && store == old(store) && call.view.None?
      ensures Calm(old(calls)) ==> Calm(calls) && call.answer.Works?
    {
      if calls == [] {
        return Call(None, None, Works);
      }
      call := calls[0];
      calls := calls[1..];
      if call.others.Some? {
        store := call.others.value;
      }
    }

    method Read() returns (view: Option<Store>)
      modifies this`store, this`calls
      ensures Quiet(old(calls)) ==> Quiet(calls) && store == old(store) && (view.Some? ==> view.value == store)
      ensures Calm(old(calls)) ==> Calm(calls) && view.Some?
    {
      var call := Begin();
      if !call.answer.Works? {
        return None;
      }
      return Some(if call.view.Some? then call.view.value else store);
    }

    /** Delete by name; a port that is already gone counts as deleted. */
    method Delete(port: nat) returns (ok: bool)
      modifies this
      ensures || (!ok && moves == old(moves))
              || exists before :: moves == old(moves) + [Removed(port, before)] && store == before - {port}
      ensures Quiet(old(calls)) ==>
                Quiet(calls) && (store == old(store) - {port} || (!ok && store == old(store)))
      ensures Calm(old(calls)) ==> Calm(calls) && ok
    {
      var call := Begin();
      if call.answer == Fails(false) {
        return false;
      }
      moves := moves + [Removed(port, store)];
      store := store - {port};
      return call.answer.Works?;
    }

    method Create(port: nat, leaseUid: Uid) returns (reply: CreateReply)
      modifies this
      ensures || (!reply.Made? && moves == old(moves))
              || (&& !reply.AlreadyExists? && exists before ::
                    && moves == old(moves) + [Created(port, before)]
                    && port !in before && store == before[port := Active(leaseUid)])
      ensures Quiet(old(calls)) ==>
                && Quiet(calls)
                && (|| (!reply.Made? && store == old(store))
                    || (!reply.AlreadyExists? && port !in old(store) && store == old(store)[port := Active(leaseUid)]))
                && (reply.AlreadyExists? ==> port in old(store))
      ensures Calm(old(calls)) ==> Calm(calls) && !reply.NotMade?
    {
      var call := Begin();
      if call.answer == Fails(false) || (call.answer.Fails? && port in store) {
        return NotMade;
      }
      if port in store {
        return AlreadyExists;
      }
      moves := moves + [Created(port, store)];
      store := store[port := Active(leaseUid)];
      return if call.answer.Works? then Made else NotMade;
    }

    /** One expired quarantine of the listing. */
    method Expire(port: nat, ghost leaseUid: Uid, now: int, listed: Store, ghost todo: set<nat>) returns (ok: bool)
      requires port in todo && port in listed && Expired(listed[port], now)
      modifies this
      ensures old(moves) <= moves && ReserveMoves(moves, |old(moves)|, leaseUid, listed, now)
      ensures Quiet(old(calls)) && old(store) == Left(listed, todo, now) ==>
                Quiet(calls) && Swept(listed, store, now) && (ok ==> store == Left(listed, todo - {port}, now))
      ensures Calm(old(calls)) ==> Calm(calls) && ok
    {
      LeftStep(listed, todo, port, now);
      LeftIsSwept(listed, todo, now);
      LeftIsSwept(listed, todo - {port}, now);
      ok := Delete(port);
    }

    /** The pass over the listed reservations: it stops at the lease's own active
        one, and deletes the expired quarantines it meets before that. */
    method Sweep(leaseUid: Uid, now: int, listed: Store) returns (ok: bool, own: Option<nat>, occupied: set<nat>)
      modifies this
      ensures old(moves) <= moves && ReserveMoves(moves, |old(moves)|, leaseUid, listed, now)
      ensures own.Some? ==> ok && own.value in listed && listed[own.value] == Active(leaseUid)
      ensures ok && own.None? ==>
                && (forall p :: p in listed ==> listed[p] != Active(leaseUid))
                && occupied == Occupied(listed, {}, now)
      ensures Quiet(old(calls)) && listed == old(store) ==> Quiet(calls) && Swept(listed, store, now)
      ensures Quiet(old(calls)) && listed == old(store) && ok && own.None? ==> store.Keys == occupied
      ensures Calm(old(calls)) ==> Calm(calls) && ok
    {
      ghost var alone := Quiet(calls) && listed == store;
      ok, own, occupied := true, None, {};
      var todo := listed.Keys;
      LeftAll(listed, now);
      while todo != {}
        invariant todo <= listed.Keys && old(moves) <= moves && ReserveMoves(moves, |old(moves)|, leaseUid, listed, now)
        invariant forall p :: p in listed && p !in todo ==> listed[p] != Active(leaseUid)
        invariant occupied == Occupied(listed, todo, now)
        invariant alone ==> Quiet(calls) && store == Left(listed, todo, now)
        invariant Calm(old(calls)) ==> Calm(calls)
        decreases |todo|
      {
        var port :| port in todo;
        LeftIsSwept(listed, todo, now);
        if listed[port] == Active(leaseUid) {
          return true, Some(port), occupied;
        }
        LeftStep(listed, todo, port, now);
        if Expired(listed[port], now) {
          ok := Expire(port, leaseUid, now, listed, todo);
          if !ok {
            return false, None, occupied;
          }
        } else {
          occupied := occupied + {port};
        }
        todo := todo - {port};
      }
      LeftIsSwept(listed, {}, now);
    }

    /** The wrap-around probe. A port that turns out taken is this lease's own if a read
        says so, and is passed over otherwise. */
    method Probe(leaseUid: Uid, start: nat, occupied: set<nat>) returns (reply: Reply, ghost seen: Option<Store>)
      modifies this
      ensures old(moves) <= moves
      ensures forall i :: |old(moves)| <= i < |moves| ==>
                moves[i].Created? && InRange(moves[i].port) && moves[i].port !in moves[i].before
      ensures reply.Port? ==>
                || (seen.Some? && reply.port in seen.value && seen.value[reply.port] == Active(leaseUid)
                    && moves == old(moves))
                || (|moves| == |old(moves)| + 1 && moves[|old(moves)|].port == reply.port && reply.port in store
                    && store[reply.port] == Active(leaseUid))
      ensures !reply.Port? ==> moves == old(moves) || (reply.Failed? && |moves| == |old(moves)| + 1)
      ensures Quiet(old(calls)) && occupied == old(store).Keys
              && (forall p :: p in old(store) ==> old(store)[p] != Active(leaseUid)) ==>
                Quiet(calls) && Passed(old(store), store, leaseUid, reply)
      ensures Calm(old(calls)) ==> Calm(calls) && !reply.Failed?
    {
      ghost var alone :=
        Quiet(calls) && occupied == store.Keys && forall p :: p in store ==> store[p] != Active(leaseUid);
      seen := None;
      for offset := 0 to COUNT
        invariant moves == old(moves)
        invariant alone ==> Quiet(calls) && store == old(store)
        invariant alone ==> forall k :: 0 <= k < offset ==> Candidate(start, k) in store
        invariant Calm(old(calls)) ==> Calm(calls)
      {
        var port := FIRST + (start + offset) % COUNT;
        if port !in occupied {
          var made := Create(port, leaseUid);
          if made.Made? {
            return Port(port), None;
          }
          if made.NotMade? {
            assert alone && store != old(store) ==> Adds(old(store), store, leaseUid, port);
            return Failed, None;
          }
          var existing := Read();
          if existing.Some? && port in existing.value && existing.value[port] == Active(leaseUid) {
            return Port(port), existing;
          }
        }
      }
      if alone {
        forall p: nat | InRange(p) ensures p in store {
          ProbeCoversRange(start, p);
        }
      }
      reply := Exhausted;
    }

    /** `start` is the hash of gateway and lease UID. */
    method Reserve(leaseUid: Uid, start: nat, now: int)
      returns (reply: Reply, ghost listed: Store, ghost seen: Option<Store>)
      modifies this
      ensures old(moves) <= moves && ReserveMoves(moves, |old(moves)|, leaseUid, listed, now)
      ensures reply.Port? ==>
                || (reply.port in listed && listed[reply.port] == Active(leaseUid))
                || (seen.Some? && reply.port in seen.value && seen.value[reply.port] == Active(leaseUid))
                || (reply.port in store && store[reply.port] == Active(leaseUid) && |moves| > 0
                    && moves[|moves| - 1].Created? && moves[|moves| - 1].port == reply.port)
      ensures Quiet(old(calls)) ==> ReservePass(old(store), store, leaseUid, reply, now)
      ensures Calm(old(calls)) ==> !reply.Failed?
    {
      listed, seen := map[], None;
      var view := Read();
      if view.None? {
        assert Swept(store, store, now) && Passed(store, store, leaseUid, Failed);
        return Failed, map[], None;
      }
      listed := view.value;
      var ok, own, occupied := Sweep(leaseUid, now, view.value);
      ghost var swept := store;
      if !ok {
        assert Passed(swept, store, leaseUid, Failed);
        return Failed, listed, None;
      }
      if own.Some? {
        assert Quiet(old(calls)) ==> own.value in swept && Passed(swept, store, leaseUid, Port(own.value));
        return Port(own.value), listed, None;
      }
      reply, seen := Probe(leaseUid, start, occupied);
    }

    /** Quarantine: one reservation of the lease in the listing and a deadline ahead, or
        nothing is changed. The patch goes to whatever now has that name. */
    method QuarantineLease(leaseUid: Uid, until: int, asked: int, now: int) returns (ok: bool, ghost listed: Store)
      modifies this
      ensures moves == old(moves)
              || exists p, before :: moves == old(moves) + [Patched(p, before)]
                   && QuarantineMove(before, store, p, leaseUid, listed, now, until)
      ensures Quiet(old(calls)) ==>
                store == Quarantined(old(store), leaseUid, until, asked, now) || (!ok && store == old(store))
      ensures Calm(old(calls)) ==> ok == (asked < until && |OwnPorts(old(store), leaseUid)| <= 1)
    {
      listed := map[];
      if until <= asked {
        return false, map[];
      }
      var view := Read();
      if view.None? {
        return false, map[];
      }
      listed := view.value;
      var own := OwnPorts(view.value, leaseUid);
      if |own| > 1 {
        return false, listed;
      }
      if own == {} {
        return true, listed;
      }
      var port :| port in own;
      assert own == {port} by {
        assert |own - {port}| == 0;
      }
      var call := Begin();
      if call.answer == Fails(false) || port !in store {
        return false, listed;
      }
      ghost var before := store;
      moves := moves + [Patched(port, store)];
      store := store[port := QuarantineOf(store[port].leaseUid, now, until)];
      assert QuarantineMove(before, store, port, leaseUid, listed, now, until);
      assert forall p :: p in OwnPorts(listed, leaseUid) ==> p == port;
      assert Quiet(old(calls)) ==>
                forall p :: p in old(store) && old(store)[p].leaseUid == leaseUid ==> p in OwnPorts(listed, leaseUid);
      return call.answer.Works?, listed;
    }
  }

  predicate QuarantineMove(before: Store, after: Store, port: nat, leaseUid: Uid, listed: Store, now: int, until: int) {
    && OwnPorts(listed, leaseUid) == {port} && port in before
    && after == before[port := QuarantineOf(before[port].leaseUid, now, until)]
  }

  /** Quarantine alone, on the current store. `asked` is the first clock reading and `now`
      the one that is stored. */
  function Quarantined(store: Store, leaseUid: Uid, until: int, asked: int, now: int): Store {
    if until <= asked || |OwnPorts(store, leaseUid)| != 1 then store
    else map p | p in store :: if store[p].leaseUid == leaseUid then QuarantineOf(leaseUid, now, until) else store[p]
  }

  /** The probe reaches every port of the range, and only those. */
  lemma ProbeCoversRange(start: nat, port: nat)
    requires InRange(port)
    ensures exists k :: 0 <= k < COUNT && Candidate(start, k) == port
    ensures forall k: nat :: InRange(Candidate(start, k))
  {
    var k := (port - FIRST + COUNT - start % COUNT) % COUNT;
    ShiftBack(start, port - FIRST, COUNT);
    assert Candidate(start, k) == port;
  }

  /** Asking again returns the port already held. */
  lemma ReserveIdempotent(before: Store, after: Store, leaseUid: Uid, reply: Reply, now: int, held: nat)
    requires ReservePass(before, after, leaseUid, reply, now) && OneActivePerLease(before)
    requires held in before && before[held] == Active(leaseUid)
    ensures !reply.Failed? ==> reply == Port(held)
    ensures Holds(after, held, leaseUid)
  {
    var swept :| Swept(before, swept, now) && Passed(swept, after, leaseUid, reply);
    assert held in swept;
  }
}
