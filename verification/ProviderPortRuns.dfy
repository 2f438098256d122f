/** Every run of the provider port allocators of one gateway: their API calls interleave
    in any order, fail or are lost at any point, and act on reads of any age. */
module ProviderPortRuns {
  import opened Common
  import opened ProviderPorts

  /** The calls that change the store. `view` is the point of the run whose store the
      call's listing shows. */
  datatype Event =
    | Remove(leaseUid: Uid, view: nat, port: nat, now: int)
    | Create(leaseUid: Uid, port: nat)
    | Patch(leaseUid: Uid, view: nat, port: nat, now: int, until: int)

  predicate Enabled(stores: seq<Store>, k: nat, e: Event)
    requires k < |stores|
  {
    match e
    case Remove(_, view, p, now) => view <= k && p in stores[view] && Expired(stores[view][p], now)
    case Create(_, p) => InRange(p) && p !in stores[k]
    case Patch(l, view, p, _, _) => view <= k && OwnPorts(stores[view], l) == {p} && p in stores[k]
  }

  function After(store: Store, e: Event): Store {
    match e
    case Remove(_, _, p, _) => store - {p}
    case Create(l, p) => store[p := Active(l)]
    case Patch(_, _, p, now, until) =>
      if p in store then store[p := QuarantineOf(store[p].leaseUid, now, until)] else store
  }

  ghost predicate IsRun(stores: seq<Store>, events: seq<Event>) {
    && |stores| == |events| + 1 && stores[0] == map[]
    && forall k :: 0 <= k < |events| ==> Enabled(stores, k, events[k]) && stores[k + 1] == After(stores[k], events[k])
  }

  // ---- The allocator's moves are such calls ----

  function EventOf(m: Move, leaseUid: Uid, view: nat, now: int): Event
    requires !m.Patched?
  {
    if m.Removed? then Remove(leaseUid, view, m.port, now) else Create(leaseUid, m.port)
  }

  /** What a reservation pass changes, on a listing of any age, is a call of a run. */
  lemma ReserveMovesAreEvents(stores: seq<Store>, k: nat, view: nat, m: Move, leaseUid: Uid, now: int)
    requires view <= k < |stores| && m.before == stores[k] && ReserveMove(m, leaseUid, stores[view], now)
    ensures Enabled(stores, k, EventOf(m, leaseUid, view, now))
  {
  }

  /** So is what a quarantine changes. */
  lemma QuarantineMovesAreEvents(
    stores: seq<Store>, k: nat, view: nat, after: Store, port: nat, leaseUid: Uid, now: int, until: int)
    requires view <= k < |stores| && QuarantineMove(stores[k], after, port, leaseUid, stores[view], now, until)
    ensures Enabled(stores, k, Patch(leaseUid, view, port, now, until))
    ensures after == After(stores[k], Patch(leaseUid, view, port, now, until))
  {
  }

  // ---- What leaves a port ----

  /** The last call about a port before point k. */
  function LastAbout(events: seq<Event>, p: nat, k: nat): Option<Event>
    requires k <= |events|
  {
    if k == 0 then None else if events[k - 1].port == p then Some(events[k - 1]) else LastAbout(events, p, k - 1)
  }

  /** A reservation as the calls about its port have left it: a quarantine is what the last
      of them asked for. */
  predicate Traced(store: Store, p: nat, last: Option<Event>) {
    p in store ==>
      && InRange(p) && last.Some?
      && match store[p]
         case Active(l) => last.value == Create(l, p)
         case Quarantine(l, _, _) => last.value.Patch? && store[p] == QuarantineOf(l, last.value.now, last.value.until)
  }

  /** In every run. */
  lemma {:induction false} Reachable(stores: seq<Store>, events: seq<Event>, k: nat, p: nat)
    requires IsRun(stores, events) && k <= |events|
    ensures Traced(stores[k], p, LastAbout(events, p, k))
  {
    if k > 0 {
      Reachable(stores, events, k - 1, p);
      assert Enabled(stores, k - 1, events[k - 1]) && stores[k] == After(stores[k - 1], events[k - 1]);
    }
  }

  /** The port is given up: the last call about it was a quarantine asked for by its own
      lease, which has run out, and with it the deadline asked for wherever the stored
      duration reaches that. */
  predicate GivenUp(store: Store, last: Option<Event>, e: Event, p: nat, l: Uid) {
    && e.Remove? && e.port == p && Holds(store, p, l) && Expired(store[p], e.now)
    && last.Some? && last.value.Patch? && last.value.leaseUid == l
    && (Reaches(last.value.now, last.value.until) ==> last.value.until <= e.now)
  }

  ghost predicate KeepsPorts(stores: seq<Store>, events: seq<Event>, k: nat)
    requires k < |events| && |stores| == |events| + 1
  {
    forall p, l :: Holds(stores[k], p, l) && !Holds(stores[k + 1], p, l) ==>
      GivenUp(stores[k], LastAbout(events, p, k), events[k], p, l)
  }

  /** A delete finds something else than an expired quarantine that the last call about the
      port asked for on behalf of the lease that has it: what it listed has been replaced, or
      was another lease's when it was quarantined. */
  predicate Misdirected(stores: seq<Store>, events: seq<Event>, k: nat)
    requires k < |events| && |stores| == |events| + 1
  {
    var e := events[k];
    && e.Remove? && e.port in stores[k]
    && (!Expired(stores[k][e.port], e.now) || MetAnother(LastAbout(events, e.port, k), stores[k][e.port].leaseUid))
  }

  /** A quarantine that was asked for by one lease and met another's reservation. */
  predicate MetAnother(last: Option<Event>, l: Uid) {
    last.Some? && last.value.Patch? && last.value.leaseUid != l
  }

  lemma ExpiryMeetsDeadline(r: Reservation, asked: int, until: int, now: int)
    requires r == QuarantineOf(r.leaseUid, asked, until) && Expired(r, now) && Reaches(asked, until)
    ensures until <= now
  {
    if asked < until {
      QuarantineReaches(asked, until);
    }
  }

  /** One call lets ports go only as they should, if and only if it is not misdirected. */
  lemma StepKeepsPorts(stores: seq<Store>, events: seq<Event>, k: nat)
    requires IsRun(stores, events) && k < |events|
    ensures KeepsPorts(stores, events, k) <==> !Misdirected(stores, events, k)
  {
    var e := events[k];
    Reachable(stores, events, k, e.port);
    assert Enabled(stores, k, e) && stores[k + 1] == After(stores[k], e);
    if e.Remove? && e.port in stores[k] {
      var r, last := stores[k][e.port], LastAbout(events, e.port, k);
      assert Holds(stores[k], e.port, r.leaseUid) && !Holds(stores[k + 1], e.port, r.leaseUid);
      if Expired(r, e.now) && Reaches(last.value.now, last.value.until) {
        ExpiryMeetsDeadline(r, last.value.now, last.value.until, e.now);
      }
    }
  }

  ghost predicate NoneMisdirected(stores: seq<Store>, events: seq<Event>, i: nat, n: nat)
    requires n <= |events| && |stores| == |events| + 1
  {
    forall k :: i <= k < n ==> !Misdirected(stores, events, k)
  }

  ghost predicate AllKeepPorts(stores: seq<Store>, events: seq<Event>, i: nat, n: nat)
    requires n <= |events| && |stores| == |events| + 1
  {
    forall k :: i <= k < n ==> KeepsPorts(stores, events, k)
  }

  /** The same over any stretch of any run. */
  lemma PortsKeptExactly(stores: seq<Store>, events: seq<Event>, i: nat, n: nat)
    requires IsRun(stores, events) && n <= |events|
    ensures AllKeepPorts(stores, events, i, n) <==> NoneMisdirected(stores, events, i, n)
  {
    forall k: nat | i <= k < n ensures KeepsPorts(stores, events, k) <==> !Misdirected(stores, events, k) {
      StepKeepsPorts(stores, events, k);
    }
  }

  ghost predicate GivenUpAt(stores: seq<Store>, events: seq<Event>, k: nat, p: nat, l: Uid)
    requires k < |events| && |stores| == |events| + 1
  {
    GivenUp(stores[k], LastAbout(events, p, k), events[k], p, l)
  }

  /** In a run without misdirected deletes a port leaves a lease only once the lease's own
      quarantine of it has run out. */
  lemma {:induction false} PortLeavesOnlyAfterQuarantine(
    stores: seq<Store>, events: seq<Event>, p: nat, l: Uid, i: nat, n: nat)
    requires IsRun(stores, events) && i <= n <= |events| && NoneMisdirected(stores, events, i, n)
    requires Holds(stores[i], p, l) && !Holds(stores[n], p, l)
    ensures exists k :: i <= k < n && GivenUpAt(stores, events, k, p, l)
    decreases n - i
  {
    if i < n {
      if Holds(stores[i + 1], p, l) {
        PortLeavesOnlyAfterQuarantine(stores, events, p, l, i + 1, n);
      } else {
        StepKeepsPorts(stores, events, i);
        assert GivenUpAt(stores, events, i, p, l);
      }
    }
  }

  /** Two leases are given one port only with the first one's quarantine in between. */
  lemma NoDoubleGrant(stores: seq<Store>, events: seq<Event>, p: nat, l: Uid, m: Uid, i: nat, n: nat)
    requires IsRun(stores, events) && i < n < |events| && NoneMisdirected(stores, events, i, n)
    requires events[i] == Create(l, p) && events[n] == Create(m, p)
    ensures exists k :: i < k < n && GivenUpAt(stores, events, k, p, l)
  {
    assert Enabled(stores, n, events[n]) && stores[i + 1] == After(stores[i], events[i]);
    PortLeavesOnlyAfterQuarantine(stores, events, p, l, i + 1, n);
  }

  // ---- Where it fails, and when reads make it hold ----

  const X := FIRST

  /** Two allocators that list the same expired quarantine. The first removes it and
      takes the port, the second removes the first one's reservation and takes it too. */
  lemma StaleListTakesPort()
    ensures var q := QuarantineOf(3, 0, SECOND);
            var stores :=
              [map[], map[X := Active(3)], map[X := q], map[], map[X := Active(1)], map[], map[X := Active(2)]];
            var events := [Create(3, X), Patch(3, 1, X, 0, SECOND), Remove(1, 2, X, 2 * SECOND), Create(1, X),
                           Remove(2, 2, X, 2 * SECOND), Create(2, X)];
            && IsRun(stores, events) && Holds(stores[4], X, 1) && Holds(stores[6], X, 2)
            && Misdirected(stores, events, 4) && !KeepsPorts(stores, events, 4)
  {
    var q := QuarantineOf(3, 0, SECOND);
    var stores := [map[], map[X := Active(3)], map[X := q], map[], map[X := Active(1)], map[], map[X := Active(2)]];
    var events := [Create(3, X), Patch(3, 1, X, 0, SECOND), Remove(1, 2, X, 2 * SECOND), Create(1, X),
                   Remove(2, 2, X, 2 * SECOND), Create(2, X)];
    assert OwnPorts(stores[1], 3) == {X};
    assert forall k :: 0 <= k < |events| ==>
              Enabled(stores, k, events[k]) && stores[k + 1] == After(stores[k], events[k]);
    StepKeepsPorts(stores, events, 4);
  }

  /** No call between a listing and its use has touched the port it is used for. */
  ghost predicate Untouched(events: seq<Event>, port: nat, view: nat, k: nat)
    requires k <= |events|
  {
    forall j :: view <= j < k ==> events[j].port != port
  }

  lemma {:induction false} UntouchedStays(stores: seq<Store>, events: seq<Event>, port: nat, view: nat, k: nat)
    requires IsRun(stores, events) && view <= k <= |events| && Untouched(events, port, view, k)
    ensures port in stores[view] <==> port in stores[k]
    ensures port in stores[view] ==> stores[k][port] == stores[view][port]
  {
    if view < k {
      UntouchedStays(stores, events, port, view, k - 1);
      assert stores[k] == After(stores[k - 1], events[k - 1]);
    }
  }

  ghost predicate CurrentReads(events: seq<Event>) {
    forall k :: 0 <= k < |events| && !events[k].Create? && events[k].view <= k ==>
      Untouched(events, events[k].port, events[k].view, k)
  }

  /** With such reads every quarantine is its own lease's. */
  lemma {:induction false} QuarantinesAreOwn(stores: seq<Store>, events: seq<Event>, k: nat, p: nat)
    requires IsRun(stores, events) && CurrentReads(events) && k <= |events| && p in stores[k]
    ensures !MetAnother(LastAbout(events, p, k), stores[k][p].leaseUid)
  {
    if k > 0 {
      var e := events[k - 1];
      assert Enabled(stores, k - 1, e) && stores[k] == After(stores[k - 1], e);
      if e.port != p {
        QuarantinesAreOwn(stores, events, k - 1, p);
      } else if e.Patch? {
        UntouchedStays(stores, events, p, e.view, k - 1);
        assert p in OwnPorts(stores[e.view], e.leaseUid);
      }
    }
  }

  /** And no delete is misdirected, so every port of every such run is kept until it is
      given up, however its calls interleave and fail. */
  lemma CurrentReadsKeepPorts(stores: seq<Store>, events: seq<Event>)
    requires IsRun(stores, events) && CurrentReads(events)
    ensures AllKeepPorts(stores, events, 0, |events|)
  {
    forall k: nat | k < |events| ensures !Misdirected(stores, events, k) {
      var e := events[k];
      assert Enabled(stores, k, e);
      if e.Remove? && e.port in stores[k] {
        UntouchedStays(stores, events, e.port, e.view, k);
        QuarantinesAreOwn(stores, events, k, e.port);
      }
    }
    PortsKeptExactly(stores, events, 0, |events|);
  }
}
