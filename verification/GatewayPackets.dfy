/** The gateway's packet rules: the port-forward table compiled by
    internal/portforward/rules_linux.go and the healthy core table of
    internal/gatewaydataplane/backend_linux.go, as first-match rule lists. */
module GatewayPackets {
  import opened Common
  import opened GatewayRuntime

  type Interface = nat

  datatype Tracking = New | Tracked

  datatype Packet = Packet(
    input: Interface, output: Interface, protocol: Protocol, destination: nat, port: nat, tracking: Tracking, mark: nat)

  datatype Verdict = Accept | Drop

  datatype Component = Dnat | Forward

  datatype Marker = LeaseMarker(leaseUid: Uid, generation: int, protocol: Protocol, component: Component) | TableMarker

  /** Destination translation of one lease and protocol. */
  datatype NatRule = NatRule(
    marker: Marker, input: Interface, protocol: Protocol, port: nat, target: nat, targetPort: nat)

  /** A filter rule matches on the fields that are present. */
  datatype FilterRule = FilterRule(
    marker: Marker, input: Interface, output: Option<Interface>, flow: Option<(Protocol, nat, nat)>, mark: Option<nat>,
    tracked: bool, verdict: Verdict)

  /** PortForwardIngressMark. */
  const INGRESS_MARK := 0x57434c50

  predicate NatMatches(r: NatRule, p: Packet) {
    r.input == p.input && r.protocol == p.protocol && r.port == p.port
  }

  predicate FilterMatches(r: FilterRule, p: Packet) {
    && r.input == p.input
    && (r.output.Some? ==> r.output.value == p.output)
    && (r.flow.Some? ==> r.flow.value == (p.protocol, p.destination, p.port))
    && (r.mark.Some? ==> r.mark.value == p.mark)
    && (r.tracked ==> p.tracking.Tracked?)
  }

  // ---- Kernel evaluation ----

  function FirstNat(rules: seq<NatRule>, p: Packet): Option<NatRule> {
    if rules == [] then None
    else if NatMatches(rules[0], p) then Some(rules[0])
    else FirstNat(rules[1..], p)
  }

  /** Prerouting translates the first packet of a connection and marks it. */
  function Translated(rules: seq<NatRule>, p: Packet): Packet {
    if p.tracking.Tracked? then p
    else
      match FirstNat(rules, p)
      case None => p
      case Some(r) => p.(destination := r.target, port := r.targetPort, mark := INGRESS_MARK)
  }

  function Evaluate(rules: seq<FilterRule>, policy: Verdict, p: Packet): Verdict {
    if rules == [] then policy
    else if FilterMatches(rules[0], p) then rules[0].verdict
    else Evaluate(rules[1..], policy, p)
  }

  // ---- The compiled tables ----

  datatype Interfaces = Interfaces(tunnel: Interface, overlay: Interface)

  type Pair = (GatewayRule, Protocol)

  function NatFor(b: Interfaces, pair: Pair): NatRule {
    NatRule(LeaseMarker(pair.0.leaseUid, pair.0.generation, pair.1, Dnat), b.tunnel, pair.1, pair.0.ingressPort,
            pair.0.overlayAddress, pair.0.targetPort)
  }

  /** The forward hook sees the packet after translation. */
  function ForwardFor(b: Interfaces, pair: Pair): FilterRule {
    FilterRule(LeaseMarker(pair.0.leaseUid, pair.0.generation, pair.1, Forward), b.tunnel, Some(b.overlay),
               Some((pair.1, pair.0.overlayAddress, pair.0.targetPort)), None, false, Accept)
  }

  function PairsOf(rule: GatewayRule): seq<Pair> {
    seq(|rule.protocols|, i requires 0 <= i < |rule.protocols| => (rule, rule.protocols[i]))
  }

  function Pairs(rules: seq<GatewayRule>): seq<Pair> {
    if rules == [] then [] else PairsOf(rules[0]) + Pairs(rules[1..])
  }

  function Prerouting(b: Interfaces, pairs: seq<Pair>): seq<NatRule> {
    seq(|pairs|, i requires 0 <= i < |pairs| => NatFor(b, pairs[i]))
  }

  function EstablishedReturn(b: Interfaces): FilterRule {
    FilterRule(TableMarker, b.tunnel, Some(b.overlay), None, None, true, Accept)
  }

  function UnmatchedTunnel(b: Interfaces): FilterRule {
    FilterRule(TableMarker, b.tunnel, None, None, None, false, Drop)
  }

  function LeaseForward(b: Interfaces, pairs: seq<Pair>): seq<FilterRule> {
    seq(|pairs|, i requires 0 <= i < |pairs| => ForwardFor(b, pairs[i]))
  }

  function PortForwardForward(b: Interfaces, pairs: seq<Pair>): seq<FilterRule> {
    LeaseForward(b, pairs) + [EstablishedReturn(b), UnmatchedTunnel(b)]
  }

  /** The core table's forward chain while the tunnel is healthy; its policy is
      drop. */
  function CoreForward(b: Interfaces): seq<FilterRule> {
    [FilterRule(TableMarker, b.overlay, Some(b.tunnel), None, None, false, Accept),
     FilterRule(TableMarker, b.tunnel, Some(b.overlay), None, Some(INGRESS_MARK), false, Accept),
     EstablishedReturn(b)]
  }

  predicate ValidRule(r: GatewayRule) {
    && r.leaseUid != NO_UID && r.generation >= 1 && r.ingressPort != 0 && r.targetPort != 0 && r.overlayAddress != 0
    && r.protocols != [] && forall i :: 0 <= i < |r.protocols| ==> !r.protocols[i].Unsupported?
  }

  predicate AllValid(rules: seq<GatewayRule>) {
    && (forall i, j :: 0 <= i < j < |rules| ==> rules[i].leaseUid != rules[j].leaseUid)
    && (forall i :: 0 <= i < |rules| ==> ValidRule(rules[i]))
  }

  function Insert(r: GatewayRule, sorted: seq<GatewayRule>): seq<GatewayRule> {
    if sorted == [] || r.leaseUid <= sorted[0].leaseUid then [r] + sorted else [sorted[0]] + Insert(r, sorted[1..])
  }

  /** sort.Slice by lease UID. */
  function Ordered(rules: seq<GatewayRule>): seq<GatewayRule> {
    if rules == [] then [] else Insert(rules[0], Ordered(rules[1..]))
  }

  class LinuxRuleBackend {
    const interfaces: Interfaces
    var prerouting: seq<NatRule>
    var forward: seq<FilterRule>

    constructor (interfaces: Interfaces)
      ensures this.interfaces == interfaces && prerouting == [] && forward == []
    {
      this.interfaces := interfaces;
      prerouting := [];
      forward := [];
    }

    /** Every rule is valid and no lease occurs twice. */
    method Validate(ordered: seq<GatewayRule>) returns (ok: bool)
      ensures ok <==> AllValid(ordered)
    {
      var seen: set<Uid> := {};
      for i := 0 to |ordered|
        invariant seen == set j | 0 <= j < i :: ordered[j].leaseUid
        invariant forall j, k :: 0 <= j < k < i ==> ordered[j].leaseUid != ordered[k].leaseUid
        invariant forall j :: 0 <= j < i ==> ValidRule(ordered[j])
      {
        if ordered[i].leaseUid in seen || !ValidRule(ordered[i]) {
          return false;
        }
        seen := seen + {ordered[i].leaseUid};
      }
      return true;
    }

    /** The rules of one lease, one pair of rules for each protocol. */
    method AddLease(rule: GatewayRule) returns (nat_: seq<NatRule>, filter: seq<FilterRule>)
      ensures nat_ == Prerouting(interfaces, PairsOf(rule)) && filter == LeaseForward(interfaces, PairsOf(rule))
    {
      nat_, filter := [], [];
      for k := 0 to |rule.protocols|
        invariant |nat_| == |filter| == k
        invariant forall j :: 0 <= j < k ==> nat_[j] == NatFor(interfaces, (rule, rule.protocols[j]))
        invariant forall j :: 0 <= j < k ==> filter[j] == ForwardFor(interfaces, (rule, rule.protocols[j]))
      {
        nat_ := nat_ + [NatFor(interfaces, (rule, rule.protocols[k]))];
        filter := filter + [ForwardFor(interfaces, (rule, rule.protocols[k]))];
      }
    }

    method Compile(ordered: seq<GatewayRule>) returns (nat_: seq<NatRule>, filter: seq<FilterRule>)
      ensures nat_ == Prerouting(interfaces, Pairs(ordered)) && filter == PortForwardForward(interfaces, Pairs(ordered))
    {
      nat_, filter := [], [];
      for i := 0 to |ordered|
        invariant nat_ + Prerouting(interfaces, Pairs(ordered[i..])) == Prerouting(interfaces, Pairs(ordered))
        invariant filter + LeaseForward(interfaces, Pairs(ordered[i..])) == LeaseForward(interfaces, Pairs(ordered))
      {
        var n, f := AddLease(ordered[i]);
        ghost var rest := Pairs(ordered[i + 1..]);
        assert Pairs(ordered[i..]) == PairsOf(ordered[i]) + rest by {
          assert ordered[i..][0] == ordered[i] && ordered[i..][1..] == ordered[i + 1..];
        }
        assert Prerouting(interfaces, PairsOf(ordered[i]) + rest) == n + Prerouting(interfaces, rest);
        assert LeaseForward(interfaces, PairsOf(ordered[i]) + rest) == f + LeaseForward(interfaces, rest);
        nat_, filter := nat_ + n, filter + f;
      }
      filter := filter + [EstablishedReturn(interfaces)];
      filter := filter + [UnmatchedTunnel(interfaces)];
    }

    /** Replaces the whole table, or refuses and leaves it. `flushOk` is the
        outcome of the kernel transaction. */
    method Replace(rules: seq<GatewayRule>, flushOk: bool) returns (ok: bool)
      modifies this
      ensures ok <==> interfaces.tunnel != interfaces.overlay && AllValid(Ordered(rules)) && flushOk
      ensures ok ==> prerouting == Prerouting(interfaces, Pairs(Ordered(rules)))
                     && forward == PortForwardForward(interfaces, Pairs(Ordered(rules)))
      ensures !ok ==> prerouting == old(prerouting) && forward == old(forward)
    {
      if interfaces.tunnel == interfaces.overlay {
        return false;
      }
      var ordered := Ordered(rules);
      var valid := Validate(ordered);
      if !valid {
        return false;
      }
      var nat_, filter := Compile(ordered);
      if !flushOk {
        return false;
      }
      prerouting, forward := nat_, filter;
      return true;
    }
  }

  // ---- What the tables mean ----

  /** The lease rule a new tunnel packet is for: the first, in table order, with
      its protocol and ingress port. */
  function Addressee(pairs: seq<Pair>, p: Packet): Option<Pair> {
    if pairs == [] then None
    else if pairs[0].1 == p.protocol && pairs[0].0.ingressPort == p.port then Some(pairs[0])
    else Addressee(pairs[1..], p)
  }

  /** The packet as the forward hook sees it, once routed. */
  function Routed(b: Interfaces, pairs: seq<Pair>, p: Packet, route: nat -> Interface): Packet {
    var t := Translated(Prerouting(b, pairs), p);
    t.(output := route(t.destination))
  }

  /** The engine's own forward chain: its rules, then the same three at the end. */
  function EngineForward(b: Interfaces, engine: seq<FilterRule>): seq<FilterRule> {
    engine + CoreForward(b)
  }

  /** Every base chain of the hook must accept: the leases', the gateway's and the
      engine's. */
  predicate Forwarded(b: Interfaces, pairs: seq<Pair>, engine: seq<FilterRule>, q: Packet) {
    && Evaluate(PortForwardForward(b, pairs), Accept, q).Accept? && Evaluate(CoreForward(b), Drop, q).Accept?
    && Evaluate(EngineForward(b, engine), Drop, q).Accept?
  }

  /** No rule of the engine's own is about this packet. */
  predicate Unconcerned(engine: seq<FilterRule>, q: Packet) {
    forall i :: 0 <= i < |engine| ==> !FilterMatches(engine[i], q)
  }

  lemma {:induction false} EngineMeansCore(b: Interfaces, engine: seq<FilterRule>, q: Packet)
    requires Unconcerned(engine, q)
    ensures Evaluate(EngineForward(b, engine), Drop, q) == Evaluate(CoreForward(b), Drop, q)
  {
    if engine == [] {
      assert engine + CoreForward(b) == CoreForward(b);
    } else {
      assert (engine + CoreForward(b))[1..] == engine[1..] + CoreForward(b);
      EngineMeansCore(b, engine[1..], q);
    }
  }

  lemma {:induction false} NatFindsAddressee(b: Interfaces, pairs: seq<Pair>, p: Packet)
    requires p.input == b.tunnel
    ensures FirstNat(Prerouting(b, pairs), p) ==
            if Addressee(pairs, p).Some? then Some(NatFor(b, Addressee(pairs, p).value)) else None
    ensures Addressee(pairs, p).Some? ==> Addressee(pairs, p).value in pairs
  {
    if pairs != [] {
      assert Prerouting(b, pairs)[1..] == Prerouting(b, pairs[1..]);
      NatFindsAddressee(b, pairs[1..], p);
    }
  }

  lemma {:induction false} LeaseRulesFirst(
    b: Interfaces, pairs: seq<Pair>, tail: seq<FilterRule>, policy: Verdict, q: Packet)
    ensures Evaluate(LeaseForward(b, pairs) + tail, policy, q) ==
            if exists i :: 0 <= i < |pairs| && FilterMatches(ForwardFor(b, pairs[i]), q) then Accept
            else Evaluate(tail, policy, q)
  {
    var chain := LeaseForward(b, pairs) + tail;
    if pairs == [] {
      assert chain == tail;
    } else {
      assert chain[0] == ForwardFor(b, pairs[0]);
      assert chain[1..] == LeaseForward(b, pairs[1..]) + tail;
      LeaseRulesFirst(b, pairs[1..], tail, policy, q);
      assert forall i :: 1 <= i < |pairs| ==> pairs[i] == pairs[1..][i - 1];
    }
  }

  /** The two rules that end the port-forward chain. */
  lemma TailMeans(b: Interfaces, q: Packet)
    ensures Evaluate([EstablishedReturn(b), UnmatchedTunnel(b)], Accept, q) ==
            if q.input == b.tunnel && !(q.output == b.overlay && q.tracking.Tracked?) then Drop else Accept
  {
    var last := [UnmatchedTunnel(b)];
    assert last[1..] == [];
    assert Evaluate(last, Accept, q) == if q.input == b.tunnel then Drop else Accept;
    assert [EstablishedReturn(b), UnmatchedTunnel(b)][1..] == last;
  }

  lemma CoreMeans(b: Interfaces, q: Packet)
    requires b.tunnel != b.overlay
    ensures Evaluate(CoreForward(b), Drop, q).Accept? <==>
            || (q.input == b.overlay && q.output == b.tunnel)
            || (q.input == b.tunnel && q.output == b.overlay && (q.mark == INGRESS_MARK || q.tracking.Tracked?))
  {
    var core := CoreForward(b);
    var two, one := [core[1], core[2]], [core[2]];
    assert one[1..] == [];
    assert Evaluate(one, Drop, q) == if FilterMatches(core[2], q) then Accept else Drop;
    assert two[1..] == one;
    assert Evaluate(two, Drop, q) == if FilterMatches(core[1], q) || FilterMatches(core[2], q) then Accept else Drop;
    assert core[1..] == two;
  }

  /** A new packet from the tunnel is forwarded exactly when some lease rule has
      its protocol and ingress port; it then goes to the overlay, to the target of
      the first such rule. */
  lemma {:induction false} NewTunnelPackets(
    b: Interfaces, pairs: seq<Pair>, engine: seq<FilterRule>, p: Packet, route: nat -> Interface)
    requires b.tunnel != b.overlay && p.input == b.tunnel && p.tracking.New? && p.mark != INGRESS_MARK
    requires forall i :: 0 <= i < |pairs| ==> route(pairs[i].0.overlayAddress) == b.overlay
    requires Unconcerned(engine, Routed(b, pairs, p, route))
    ensures var q := Routed(b, pairs, p, route);
            var addressee := Addressee(pairs, p);
            && (Forwarded(b, pairs, engine, q) <==> addressee.Some?)
            && (addressee.Some? ==>
                  q.output == b.overlay && q.destination == addressee.value.0.overlayAddress
                    && q.port == addressee.value.0.targetPort)
  {
    var q := Routed(b, pairs, p, route);
    NatFindsAddressee(b, pairs, p);
    EngineMeansCore(b, engine, q);
    CoreMeans(b, q);
    LeaseRulesFirst(b, pairs, [EstablishedReturn(b), UnmatchedTunnel(b)], Accept, q);
    if Addressee(pairs, p).Some? {
      var i :| 0 <= i < |pairs| && pairs[i] == Addressee(pairs, p).value;
      AddresseeMatches(pairs, p);
      assert FilterMatches(ForwardFor(b, pairs[i]), q);
    }
  }

  lemma {:induction false} AddresseeMatches(pairs: seq<Pair>, p: Packet)
    ensures Addressee(pairs, p).Some? ==>
              Addressee(pairs, p).value.1 == p.protocol && Addressee(pairs, p).value.0.ingressPort == p.port
  {
    if pairs != [] {
      AddresseeMatches(pairs[1..], p);
    }
  }

  /** Overlay egress and the tracked replies to it pass, whatever the leases. */
  lemma EgressAndRepliesPass(b: Interfaces, pairs: seq<Pair>, engine: seq<FilterRule>, q: Packet)
    requires b.tunnel != b.overlay && Unconcerned(engine, q)
    requires || (q.input == b.overlay && q.output == b.tunnel)
             || (q.input == b.tunnel && q.output == b.overlay && q.tracking.Tracked?)
    ensures Forwarded(b, pairs, engine, q)
  {
    EngineMeansCore(b, engine, q);
    CoreMeans(b, q);
    TailMeans(b, q);
    LeaseRulesFirst(b, pairs, [EstablishedReturn(b), UnmatchedTunnel(b)], Accept, q);
  }

  /** Tunnel traffic that leaves anywhere but the overlay is dropped. */
  lemma TunnelLeavesOnlyToOverlay(b: Interfaces, pairs: seq<Pair>, engine: seq<FilterRule>, q: Packet)
    requires b.tunnel != b.overlay && q.input == b.tunnel && q.output != b.overlay
    ensures !Forwarded(b, pairs, engine, q)
  {
    CoreMeans(b, q);
  }

  // ---- The table order and its markers ----

  predicate SortedByLease(rules: seq<GatewayRule>) {
    forall i, j :: 0 <= i < j < |rules| ==> rules[i].leaseUid <= rules[j].leaseUid
  }

  lemma {:induction false} InsertPermutes(r: GatewayRule, sorted: seq<GatewayRule>)
    ensures multiset(Insert(r, sorted)) == multiset(sorted) + multiset{r}
  {
    if sorted != [] && r.leaseUid > sorted[0].leaseUid {
      InsertPermutes(r, sorted[1..]);
      assert sorted == [sorted[0]] + sorted[1..];
    }
  }

  lemma {:induction false} InsertAbove(r: GatewayRule, sorted: seq<GatewayRule>, least: Uid)
    requires least <= r.leaseUid && forall i :: 0 <= i < |sorted| ==> least <= sorted[i].leaseUid
    ensures forall i :: 0 <= i < |Insert(r, sorted)| ==> least <= Insert(r, sorted)[i].leaseUid
  {
    if sorted != [] && r.leaseUid > sorted[0].leaseUid {
      InsertAbove(r, sorted[1..], least);
    }
  }

  lemma {:induction false} InsertSorts(r: GatewayRule, sorted: seq<GatewayRule>)
    requires SortedByLease(sorted)
    ensures SortedByLease(Insert(r, sorted))
  {
    if sorted != [] && r.leaseUid > sorted[0].leaseUid {
      InsertSorts(r, sorted[1..]);
      InsertAbove(r, sorted[1..], sorted[0].leaseUid);
    }
  }

  /** The table is the given rules, in order of lease UID. */
  lemma {:induction false} OrderedSorts(rules: seq<GatewayRule>)
    ensures SortedByLease(Ordered(rules)) && multiset(Ordered(rules)) == multiset(rules)
  {
    if rules != [] {
      OrderedSorts(rules[1..]);
      InsertSorts(rules[0], Ordered(rules[1..]));
      InsertPermutes(rules[0], Ordered(rules[1..]));
      assert rules == [rules[0]] + rules[1..];
    }
  }

  lemma {:induction false} AddresseeOfConcat(a: seq<Pair>, c: seq<Pair>, p: Packet)
    ensures Addressee(a + c, p) == if Addressee(a, p).Some? then Addressee(a, p) else Addressee(c, p)
  {
    if a == [] {
      assert a + c == c;
    } else {
      assert (a + c)[0] == a[0] && (a + c)[1..] == a[1..] + c;
      AddresseeOfConcat(a[1..], c, p);
    }
  }

  lemma {:induction false} AddresseeOfOne(rule: GatewayRule, pairs: seq<Pair>, p: Packet)
    requires forall i :: 0 <= i < |pairs| ==> pairs[i].0 == rule
    ensures Addressee(pairs, p).Some? <==>
              rule.ingressPort == p.port && exists i :: 0 <= i < |pairs| && pairs[i].1 == p.protocol
    ensures Addressee(pairs, p).Some? ==> Addressee(pairs, p).value.0 == rule
  {
    if pairs != [] {
      AddresseeOfOne(rule, pairs[1..], p);
      assert forall i :: 1 <= i < |pairs| ==> pairs[i] == pairs[1..][i - 1];
    }
  }

  predicate RuleTakes(rule: GatewayRule, p: Packet) {
    rule.ingressPort == p.port && p.protocol in rule.protocols
  }

  /** Some lease takes the packet exactly when a rule of the set has its protocol
      and port, and among those the lowest lease UID wins. */
  lemma {:induction false} LowestLeaseWins(rules: seq<GatewayRule>, p: Packet)
    requires SortedByLease(rules)
    ensures Addressee(Pairs(rules), p).Some? <==> exists i :: 0 <= i < |rules| && RuleTakes(rules[i], p)
    ensures Addressee(Pairs(rules), p).Some? ==>
              forall i :: 0 <= i < |rules| && RuleTakes(rules[i], p) ==>
                Addressee(Pairs(rules), p).value.0.leaseUid <= rules[i].leaseUid
  {
    if rules != [] {
      var own := PairsOf(rules[0]);
      LowestLeaseWins(rules[1..], p);
      AddresseeOfConcat(own, Pairs(rules[1..]), p);
      AddresseeOfOne(rules[0], own, p);
      assert RuleTakes(rules[0], p) ==> exists i :: 0 <= i < |own| && own[i].1 == p.protocol by {
        if RuleTakes(rules[0], p) {
          var i :| 0 <= i < |rules[0].protocols| && rules[0].protocols[i] == p.protocol;
          assert own[i].1 == p.protocol;
        }
      }
      assert forall i :: 1 <= i < |rules| ==> rules[i] == rules[1..][i - 1];
    }
  }

  lemma {:induction false} PairsAreOfRules(rules: seq<GatewayRule>)
    ensures forall i :: 0 <= i < |Pairs(rules)| ==>
              Pairs(rules)[i].0 in rules && Pairs(rules)[i].1 in Pairs(rules)[i].0.protocols
  {
    if rules != [] {
      PairsAreOfRules(rules[1..]);
      forall i | 0 <= i < |Pairs(rules)|
        ensures Pairs(rules)[i].0 in rules && Pairs(rules)[i].1 in Pairs(rules)[i].0.protocols
      {
        if i < |PairsOf(rules[0])| {
          assert Pairs(rules)[i] == PairsOf(rules[0])[i];
        } else {
          assert Pairs(rules)[i] == Pairs(rules[1..])[i - |PairsOf(rules[0])|];
        }
      }
    }
  }

  lemma {:induction false} SameRules(a: seq<GatewayRule>, c: seq<GatewayRule>, r: GatewayRule)
    requires multiset(a) == multiset(c)
    ensures r in a <==> r in c
  {
    assert r in a <==> r in multiset(a);
    assert r in c <==> r in multiset(c);
  }

  /** With the tables that Replace installs for a set of lease rules: a new tunnel packet
      is forwarded exactly when some rule of the set has its protocol and ingress port,
      and then to the overlay and the target of the one with the lowest lease UID. */
  lemma InstalledSetForwards(
    b: Interfaces, rules: seq<GatewayRule>, engine: seq<FilterRule>, p: Packet, route: nat -> Interface)
    requires b.tunnel != b.overlay && p.input == b.tunnel && p.tracking.New? && p.mark != INGRESS_MARK
    requires forall r :: r in rules ==> route(r.overlayAddress) == b.overlay
    requires Unconcerned(engine, Routed(b, Pairs(Ordered(rules)), p, route))
    ensures var pairs := Pairs(Ordered(rules));
            var q := Routed(b, pairs, p, route);
            && (Forwarded(b, pairs, engine, q) <==> exists r :: r in rules && RuleTakes(r, p))
            && (Forwarded(b, pairs, engine, q) ==>
                  && q.output == b.overlay
                  && exists r :: r in rules && RuleTakes(r, p) && q.destination == r.overlayAddress
                       && q.port == r.targetPort
                                 && forall o :: o in rules && RuleTakes(o, p) ==> r.leaseUid <= o.leaseUid)
  {
    var ordered := Ordered(rules);
    var pairs := Pairs(ordered);
    OrderedSorts(rules);
    PairsAreOfRules(ordered);
    forall r ensures r in ordered <==> r in rules {
      SameRules(ordered, rules, r);
    }
    NewTunnelPackets(b, pairs, engine, p, route);
    LowestLeaseWins(ordered, p);
    AddresseeMatches(pairs, p);
    if Addressee(pairs, p).Some? {
      NatFindsAddressee(b, pairs, p);
      var r := Addressee(pairs, p).value.0;
      var i :| 0 <= i < |pairs| && pairs[i] == Addressee(pairs, p).value;
      assert r in rules && RuleTakes(r, p);
    }
  }
}
