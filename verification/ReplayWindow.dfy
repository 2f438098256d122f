/** The replay window of the local CNI protocol, internal/cni/protocol_auth.go. */
module ReplayWindow {
  import opened Common

  /** A request as decoded from its headers. `authentic` is the outcome of the
      version, identifier and MAC checks. */
  datatype Request = Request(id: Uid, issuedAt: int, authentic: bool)

  const MAX_CLOCK_SKEW := 30_000_000_000
  const MAX_REPLAY_IDS := 4096

  predicate Fresh(issuedAt: int, now: int) {
    now - MAX_CLOCK_SKEW <= issuedAt <= now + MAX_CLOCK_SKEW
  }

  function Pruned(seen: map<Uid, int>, now: int): map<Uid, int> {
    map id | id in seen && seen[id] >= now - MAX_CLOCK_SKEW :: seen[id]
  }

  datatype Verdict = Verdict(seen: map<Uid, int>, accepted: bool)

  function Verified(seen: map<Uid, int>, request: Request, now: int): Verdict {
    if !request.authentic || !Fresh(request.issuedAt, now) then Verdict(seen, false)
    else
      var kept := Pruned(seen, now);
      if request.id in kept || |kept| >= MAX_REPLAY_IDS then Verdict(kept, false)
      else Verdict(kept[request.id := request.issuedAt], true)
  }

  class ProtocolAuthenticator {
    var seen: map<Uid, int>

    constructor ()
      ensures seen == map[]
    {
      seen := map[];
    }

    method ConsumeRequestId(id: Uid, issuedAt: int, now: int) returns (ok: bool)
      requires Fresh(issuedAt, now)
      modifies this
      ensures Verdict(seen, ok) == Verified(old(seen), Request(id, issuedAt, true), now)
    {
      var candidates := seen.Keys;
      while candidates != {}
        invariant candidates <= old(seen).Keys
        invariant forall k :: k in seen ==> k in old(seen) && seen[k] == old(seen)[k]
        invariant forall k :: k in old(seen) && (k in candidates || old(seen)[k] >= now - MAX_CLOCK_SKEW) ==> k in seen
        invariant forall k :: k in old(seen) && k !in candidates && old(seen)[k] < now - MAX_CLOCK_SKEW ==> k !in seen
        decreases |candidates|
      {
        var candidate :| candidate in candidates;
        candidates := candidates - {candidate};
        if seen[candidate] < now - MAX_CLOCK_SKEW {
          seen := seen - {candidate};
        }
      }
      assert seen == Pruned(old(seen), now);
      if id in seen {
        return false;
      }
      if |seen| >= MAX_REPLAY_IDS {
        return false;
      }
      seen := seen[id := issuedAt];
      return true;
    }

    method VerifyRequest(request: Request, now: int) returns (ok: bool)
      modifies this
      ensures Verdict(seen, ok) == Verified(old(seen), request, now)
    {
      if !request.authentic {
        return false;
      }
      if request.issuedAt < now - MAX_CLOCK_SKEW || request.issuedAt > now + MAX_CLOCK_SKEW {
        return false;
      }
      ok := ConsumeRequestId(request.id, request.issuedAt, now);
    }
  }

  datatype Arrival = Arrival(request: Request, now: int)

  ghost predicate IsRun(tables: seq<map<Uid, int>>, arrivals: seq<Arrival>) {
    && |tables| == |arrivals| + 1 && tables[0] == map[]
    && (forall i :: 0 <= i < |arrivals| ==>
      tables[i + 1] == Verified(tables[i], arrivals[i].request, arrivals[i].now).seen)
  }

  ghost predicate Nondecreasing(arrivals: seq<Arrival>) {
    forall i, j :: 0 <= i < j < |arrivals| ==> arrivals[i].now <= arrivals[j].now
  }

  predicate AcceptedAt(tables: seq<map<Uid, int>>, arrivals: seq<Arrival>, i: nat)
    requires i < |arrivals| < |tables|
  {
    Verified(tables[i], arrivals[i].request, arrivals[i].now).accepted
  }

  /** The table never outgrows its bound. */
  lemma {:induction false} TableBounded(tables: seq<map<Uid, int>>, arrivals: seq<Arrival>, n: nat)
    requires IsRun(tables, arrivals) && n <= |arrivals|
    ensures |tables[n]| <= MAX_REPLAY_IDS
  {
    if n > 0 {
      TableBounded(tables, arrivals, n - 1);
      var kept := Pruned(tables[n - 1], arrivals[n - 1].now);
      SubmapSize(kept, tables[n - 1]);
    }
  }

  lemma SubmapSize(small: map<Uid, int>, big: map<Uid, int>)
    requires small.Keys <= big.Keys
    ensures |small| <= |big|
  {
    SubsetSize(small.Keys, big.Keys);
    assert |small| == |small.Keys| && |big| == |big.Keys|;
  }

  lemma {:induction false} SubsetSize(small: set<Uid>, big: set<Uid>)
    requires small <= big
    ensures |small| <= |big|
  {
    if small != {} {
      var x :| x in small;
      SubsetSize(small - {x}, big - {x});
    }
  }

  /** Handling this arrival drops an identifier of that issue time. */
  predicate Prunes(a: Arrival, issuedAt: int) {
    a.request.authentic && Fresh(a.request.issuedAt, a.now) && issuedAt < a.now - MAX_CLOCK_SKEW
  }

  ghost predicate PrunedBetween(arrivals: seq<Arrival>, issuedAt: int, i: nat, n: nat)
    requires n <= |arrivals|
  {
    exists k :: i < k < n && Prunes(arrivals[k], issuedAt)
  }

  ghost predicate AcceptedBetween(tables: seq<map<Uid, int>>, arrivals: seq<Arrival>, id: Uid, i: nat, n: nat)
    requires n <= |arrivals| < |tables|
  {
    exists k :: i < k < n && AcceptedAt(tables, arrivals, k) && arrivals[k].request.id == id
  }

  /** With any clock, an accepted identifier that is not accepted again is in the table
      exactly as long as no arrival has dropped it, and then with its issue time. */
  lemma {:induction false} Remembered(tables: seq<map<Uid, int>>, arrivals: seq<Arrival>, i: nat, n: nat)
    requires IsRun(tables, arrivals) && i < n <= |arrivals| && AcceptedAt(tables, arrivals, i)
    requires !AcceptedBetween(tables, arrivals, arrivals[i].request.id, i, n)
    ensures var r := arrivals[i].request;
            && (r.id in tables[n] <==> !PrunedBetween(arrivals, r.issuedAt, i, n))
            && (r.id in tables[n] ==> tables[n][r.id] == r.issuedAt)
  {
    var r := arrivals[i].request;
    if i + 1 < n {
      assert !AcceptedBetween(tables, arrivals, r.id, i, n - 1);
      Remembered(tables, arrivals, i, n - 1);
      assert !(AcceptedAt(tables, arrivals, n - 1) && arrivals[n - 1].request.id == r.id);
      assert PrunedBetween(arrivals, r.issuedAt, i, n) <==>
                PrunedBetween(arrivals, r.issuedAt, i, n - 1) || Prunes(arrivals[n - 1], r.issuedAt);
    }
  }

  /** With any clock, a request that was accepted and not since, arriving again authentic
      and fresh while the table has room, is accepted a second time if and only if some
      fresh, authentic arrival in between found its issue time too old. */
  lemma ReplayedExactlyWhenPruned(tables: seq<map<Uid, int>>, arrivals: seq<Arrival>, i: nat, n: nat)
    requires IsRun(tables, arrivals) && i < n < |arrivals| && AcceptedAt(tables, arrivals, i)
    requires !AcceptedBetween(tables, arrivals, arrivals[i].request.id, i, n)
    requires arrivals[n].request == arrivals[i].request && Fresh(arrivals[n].request.issuedAt, arrivals[n].now)
    requires |Pruned(tables[n], arrivals[n].now)| < MAX_REPLAY_IDS
    ensures AcceptedAt(tables, arrivals, n) <==> PrunedBetween(arrivals, arrivals[i].request.issuedAt, i, n)
  {
    Remembered(tables, arrivals, i, n);
  }

  /** With a nondecreasing clock an identifier is accepted again only after its earlier
      issue time left the freshness window, so no request passes twice. */
  lemma {:induction false} NoReplay(tables: seq<map<Uid, int>>, arrivals: seq<Arrival>, i: nat, n: nat)
    requires IsRun(tables, arrivals) && Nondecreasing(arrivals) && i < n < |arrivals|
    requires AcceptedAt(tables, arrivals, i) && AcceptedAt(tables, arrivals, n)
    requires arrivals[i].request.id == arrivals[n].request.id
    ensures arrivals[i].request.issuedAt < arrivals[n].now - MAX_CLOCK_SKEW <= arrivals[n].request.issuedAt
    decreases n
  {
    var id := arrivals[i].request.id;
    if AcceptedBetween(tables, arrivals, id, i, n) {
      var k :| i < k < n && AcceptedAt(tables, arrivals, k) && arrivals[k].request.id == id;
      NoReplay(tables, arrivals, i, k);
    } else {
      Remembered(tables, arrivals, i, n);
    }
  }

  /** The clock must not run backwards: one reading in the future prunes an
      identifier, and a reading back in the past accepts it a second time. */
  lemma BackwardClockReplays()
    ensures var r := Request(1, 0, true);
            var other := Request(2, 2 * MAX_CLOCK_SKEW, true);
            var t1 := Verified(map[], r, 0);
            var t2 := Verified(t1.seen, other, 2 * MAX_CLOCK_SKEW);
            t1.accepted && t2.accepted && Verified(t2.seen, r, 0).accepted
  {
    var r := Request(1, 0, true);
    assert Pruned(map[], 0) == map[];
    var t1 := Verified(map[], r, 0);
    assert t1.seen == map[1 := 0];
    assert Pruned(t1.seen, 2 * MAX_CLOCK_SKEW) == map[];
    var t2 := Verified(t1.seen, Request(2, 2 * MAX_CLOCK_SKEW, true), 2 * MAX_CLOCK_SKEW);
    assert t2.seen == map[2 := 2 * MAX_CLOCK_SKEW];
    assert Pruned(t2.seen, 0) == t2.seen;
  }
}
