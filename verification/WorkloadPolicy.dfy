/** The workload's egress policy, internal/dataplane/backend_linux.go: the output
    chain of the owned nftables table and the policy-routing rules, for IPv4
    packets. */
module WorkloadPolicy {
  import opened Common

  /** An IPv4 address as its 32 bits, most significant first. */
  type Address = bits: seq<bool> | |bits| == 32 witness seq(32, _ => false)

  /** A cluster CIDR. IPv6 ones are kept because they take a place in the lists. */
  datatype Cidr = V4(address: Address, bits: nat) | V6

  datatype Mode = Preserve | Gateway | Deny

  datatype Transport = UDP | TCP | Other

  type Interface = nat

  const NO_INTERFACE: Interface := 0
  const LOOPBACK: Interface := 1

  datatype Packet = Packet(output: Interface, transport: Transport, destination: Address, port: nat)

  datatype Endpoint = Endpoint(address: Address, port: nat)

  datatype Config = Config(underlay: Interface, overlay: Interface, endpoint: Endpoint, mode: Mode, cidrs: seq<Cidr>)

  predicate ValidConfig(c: Config) {
    c.underlay != NO_INTERFACE && c.overlay != NO_INTERFACE && c.endpoint.port != 0 && WellFormed(c.cidrs)
  }

  predicate WellFormed(cidrs: seq<Cidr>) {
    forall i :: 0 <= i < |cidrs| && cidrs[i].V4? ==> cidrs[i].bits <= 32
  }

  // ---- Prefixes ----

  function CidrMask(bits: nat): Address {
    seq(32, k => k < bits)
  }

  function And(x: Address, mask: Address): Address {
    seq(32, k requires 0 <= k < 32 => x[k] && mask[k])
  }

  /** What the kernel compares: the masked destination with the masked prefix. */
  predicate MaskMatches(cidr: Cidr, x: Address) {
    cidr.V4? && And(x, CidrMask(cidr.bits)) == And(cidr.address, CidrMask(cidr.bits))
  }

  /** Prefix containment: the leading bits agree. */
  predicate Contains(cidr: Cidr, x: Address) {
    cidr.V4? && cidr.bits <= 32 && x[..cidr.bits] == cidr.address[..cidr.bits]
  }

  /** Mask matching is prefix containment. */
  lemma MaskIsContainment(cidr: Cidr, x: Address)
    requires cidr.V4? ==> cidr.bits <= 32
    ensures MaskMatches(cidr, x) <==> Contains(cidr, x)
  {
    if cidr.V4? {
      var mask := CidrMask(cidr.bits);
      var l, r := And(x, mask), And(cidr.address, mask);
      if l == r {
        forall k | 0 <= k < cidr.bits ensures x[k] == cidr.address[k] {
          assert l[k] == x[k] && r[k] == cidr.address[k];
        }
      }
      if Contains(cidr, x) {
        forall k | 0 <= k < 32 ensures l[k] == r[k] {
          if k < cidr.bits {
            assert x[..cidr.bits][k] == x[k] && cidr.address[..cidr.bits][k] == cidr.address[k];
          }
        }
      }
    }
  }

  ghost predicate InCluster(cidrs: seq<Cidr>, x: Address) {
    exists i :: 0 <= i < |cidrs| && Contains(cidrs[i], x)
  }

  // ---- The output chain ----

  datatype Verdict = Accept | Drop

  datatype OutputRule =
    | OnInterface(interface_: Interface, verdict: Verdict)
    | ToPrefix(cidr: Cidr, verdict: Verdict)
    | ToEndpoint(interface_: Interface, endpoint: Endpoint, verdict: Verdict)

  predicate Matches(r: OutputRule, p: Packet) {
    match r
    case OnInterface(i, _) => p.output == i
    case ToPrefix(cidr, _) => MaskMatches(cidr, p.destination)
    case ToEndpoint(i, e, _) => p.output == i && p.destination == e.address && p.transport.UDP? && p.port == e.port
  }

  /** First match; the chain's policy is drop. */
  function Evaluate(rules: seq<OutputRule>, p: Packet): Verdict {
    if rules == [] then Drop else if Matches(rules[0], p) then rules[0].verdict else Evaluate(rules[1..], p)
  }

  function Prefixes(cidrs: seq<Cidr>, verdict: Verdict): seq<OutputRule> {
    seq(|cidrs|, i requires 0 <= i < |cidrs| => ToPrefix(cidrs[i], verdict))
  }

  /** The chain replacePolicy builds; an absent interface adds no rule. */
  function OutputChain(
    underlay: Interface, endpoint: Endpoint, overlay: Interface, mode: Mode, cidrs: seq<Cidr>): seq<OutputRule> {
    [OnInterface(LOOPBACK, Accept)]
    + (if mode.Deny? then Prefixes(cidrs, Drop) else [])
    + (if overlay != NO_INTERFACE then [OnInterface(overlay, Accept)] else [])
    + (if underlay != NO_INTERFACE && endpoint.port != 0 then [ToEndpoint(underlay, endpoint, Accept)] else [])
    + (if mode.Preserve? then Prefixes(cidrs, Accept) else [])
  }

  // ---- Policy routing ----

  const ENDPOINT_PRIORITY := 11000
  const DNS_UDP_PRIORITY := 11050
  const DNS_TCP_PRIORITY := 11051
  const CLUSTER_PRIORITY := 11100
  const PROTECTED_PRIORITY := 12000
  const DNS_PORT := 53

  datatype Table = Main | Protected

  datatype Selector = Everything | Destination(cidr: Cidr) | Dns(transport: Transport)

  datatype PolicyRule = PolicyRule(priority: nat, selector: Selector, table: Table)

  predicate Selects(s: Selector, p: Packet) {
    match s
    case Everything => true
    case Destination(cidr) => MaskMatches(cidr, p.destination)
    case Dns(t) => p.transport == t && p.port == DNS_PORT
  }

  /** The kernel takes the matching rule of lowest priority number, the earlier
      added one when they are equal. */
  function Lookup(rules: seq<PolicyRule>, p: Packet, best: Option<PolicyRule>): Option<PolicyRule> {
    if rules == [] then best
    else
      var r := rules[0];
      Lookup(rules[1..], p,
             if Selects(r.selector, p) && (best.None? || r.priority < best.value.priority) then Some(r) else best)
  }

  /** One rule for each IPv4 cluster CIDR, at increasing priorities. */
  function ClusterRules(cidrs: seq<Cidr>, priority: nat): seq<PolicyRule> {
    if cidrs == [] then []
    else if cidrs[0].V6? then ClusterRules(cidrs[1..], priority)
    else [PolicyRule(priority, Destination(cidrs[0]), Main)] + ClusterRules(cidrs[1..], priority + 1)
  }

  function FirstRules(c: Config): seq<PolicyRule> {
    [PolicyRule(ENDPOINT_PRIORITY, Destination(V4(c.endpoint.address, 32)), Main),
     PolicyRule(DNS_UDP_PRIORITY, Dns(UDP), Protected), PolicyRule(DNS_TCP_PRIORITY, Dns(TCP), Protected)]
  }

  function PolicyRules(c: Config): seq<PolicyRule> {
    FirstRules(c)
    + (if c.mode.Preserve? then ClusterRules(c.cidrs, CLUSTER_PRIORITY) else [])
    + [PolicyRule(PROTECTED_PRIORITY, Everything, Protected)]
  }

  class Backend {
    var output: seq<OutputRule>
    var policy: seq<PolicyRule>

    constructor ()
      ensures output == [] && policy == []
    {
      output, policy := [], [];
    }

    method AddPrefixes(chain: seq<OutputRule>, cidrs: seq<Cidr>, verdict: Verdict) returns (longer: seq<OutputRule>)
      ensures longer == chain + Prefixes(cidrs, verdict)
    {
      longer := chain;
      for i := 0 to |cidrs|
        invariant longer == chain + Prefixes(cidrs[..i], verdict)
      {
        longer := longer + [ToPrefix(cidrs[i], verdict)];
        assert Prefixes(cidrs[..i + 1], verdict) == Prefixes(cidrs[..i], verdict) + [ToPrefix(cidrs[i], verdict)];
      }
      assert cidrs[..|cidrs|] == cidrs;
    }

    /** replacePolicy: the whole table in one transaction, or nothing. */
    method ReplacePolicy(
      underlay: Interface, endpoint: Endpoint, overlay: Interface, mode: Mode, cidrs: seq<Cidr>,
      flushOk: bool) returns (ok: bool)
      modifies this`output
      ensures ok == flushOk
      ensures output == if ok then OutputChain(underlay, endpoint, overlay, mode, cidrs) else old(output)
    {
      var chain := [OnInterface(LOOPBACK, Accept)];
      if mode == Deny {
        chain := AddPrefixes(chain, cidrs, Drop);
      }
      if overlay != NO_INTERFACE {
        chain := chain + [OnInterface(overlay, Accept)];
      }
      if underlay != NO_INTERFACE && endpoint.port != 0 {
        chain := chain + [ToEndpoint(underlay, endpoint, Accept)];
      }
      if mode == Preserve {
        chain := AddPrefixes(chain, cidrs, Accept);
      }
      if !flushOk {
        return false;
      }
      output := chain;
      return true;
    }

    /** Add a rule while additions still work. */
    method AddRule(rule: PolicyRule, works: nat) returns (ok: bool)
      modifies this`policy
      ensures ok == (|old(policy)| < works)
      ensures policy == if ok then old(policy) + [rule] else old(policy)
    {
      ok := |policy| < works;
      if ok {
        policy := policy + [rule];
      }
    }

    /** The cluster rules, at increasing priorities. */
    method AddClusterRules(cidrs: seq<Cidr>, works: nat) returns (ok: bool)
      modifies this`policy
      ensures policy <= old(policy) + ClusterRules(cidrs, CLUSTER_PRIORITY)
      ensures old(policy) <= policy
      ensures |old(policy)| <= works ==> |policy| <= works
      ensures ok ==> policy == old(policy) + ClusterRules(cidrs, CLUSTER_PRIORITY)
      ensures !ok ==> |policy| >= works && policy != old(policy) + ClusterRules(cidrs, CLUSTER_PRIORITY)
    {
      ghost var all := policy + ClusterRules(cidrs, CLUSTER_PRIORITY);
      var priority: nat := CLUSTER_PRIORITY;
      for i := 0 to |cidrs|
        invariant old(policy) <= policy && policy + ClusterRules(cidrs[i..], priority) == all
        invariant |old(policy)| <= works ==> |policy| <= works
      {
        assert cidrs[i..][1..] == cidrs[i + 1..];
        if cidrs[i].V4? {
          ghost var before := policy;
          ok := AddRule(PolicyRule(priority, Destination(cidrs[i]), Main), works);
          if !ok {
            return;
          }
          priority := priority + 1;
        }
      }
      assert cidrs[|cidrs|..] == [];
      assert policy + [] == policy;
      ok := true;
    }

    /** The endpoint and DNS rules. */
    method AddFirstRules(c: Config, works: nat) returns (ok: bool)
      modifies this`policy
      ensures ok == (3 <= works)
      ensures policy == if ok then FirstRules(c) else FirstRules(c)[..works]
    {
      policy := [];
      ok := AddRule(PolicyRule(ENDPOINT_PRIORITY, Destination(V4(c.endpoint.address, 32)), Main), works);
      if ok {
        ok := AddRule(PolicyRule(DNS_UDP_PRIORITY, Dns(UDP), Protected), works);
      }
      if ok {
        ok := AddRule(PolicyRule(DNS_TCP_PRIORITY, Dns(TCP), Protected), works);
      }
    }

    /** reconcilePolicyRules, once the owned rules are removed: after `works` additions
        the next one fails and ends it, so that a prefix of the rules is left. */
    method ReconcilePolicyRules(c: Config, works: nat) returns (ok: bool)
      modifies this`policy
      ensures ok == (|PolicyRules(c)| <= works)
      ensures policy == if ok then PolicyRules(c) else PolicyRules(c)[..works]
    {
      ghost var all := PolicyRules(c);
      ok := AddFirstRules(c, works);
      if !ok {
        assert FirstRules(c)[..works] == all[..works];
        return;
      }
      assert FirstRules(c) + [] == FirstRules(c);
      if c.mode == Preserve {
        ok := AddClusterRules(c.cidrs, works);
        if !ok {
          assert policy == all[..works];
          return;
        }
      }
      assert all == policy + [PolicyRule(PROTECTED_PRIORITY, Everything, Protected)];
      ok := AddRule(PolicyRule(PROTECTED_PRIORITY, Everything, Protected), works);
    }
  }

  // ---- What the chain means ----

  lemma {:induction false} PrefixesFirst(cidrs: seq<Cidr>, verdict: Verdict, tail: seq<OutputRule>, p: Packet)
    requires WellFormed(cidrs)
    ensures Evaluate(Prefixes(cidrs, verdict) + tail, p) ==
            if InCluster(cidrs, p.destination) then verdict else Evaluate(tail, p)
  {
    var chain := Prefixes(cidrs, verdict) + tail;
    if cidrs == [] {
      assert chain == tail;
    } else {
      MaskIsContainment(cidrs[0], p.destination);
      assert chain[0] == ToPrefix(cidrs[0], verdict) && chain[1..] == Prefixes(cidrs[1..], verdict) + tail;
      PrefixesFirst(cidrs[1..], verdict, tail, p);
      assert forall i :: 1 <= i < |cidrs| ==> cidrs[i] == cidrs[1..][i - 1];
    }
  }

  predicate EndpointFlow(c: Config, p: Packet) {
    p.output == c.underlay && p.destination == c.endpoint.address && p.transport.UDP? && p.port == c.endpoint.port
  }

  lemma {:induction false} SkipOne(r: OutputRule, tail: seq<OutputRule>, p: Packet)
    ensures Evaluate([r] + tail, p) == if Matches(r, p) then r.verdict else Evaluate(tail, p)
  {
    assert ([r] + tail)[1..] == tail;
  }

  /** Exactly what the protected policy lets out of the workload. */
  lemma ChainMeans(c: Config, p: Packet)
    requires ValidConfig(c)
    ensures var inside := InCluster(c.cidrs, p.destination);
            Evaluate(OutputChain(c.underlay, c.endpoint, c.overlay, c.mode, c.cidrs), p).Accept? <==>
              || p.output == LOOPBACK
              || (!(c.mode.Deny? && inside)
                  && (p.output == c.overlay || EndpointFlow(c, p) || (c.mode.Preserve? && inside)))
  {
    var last := if c.mode.Preserve? then Prefixes(c.cidrs, Accept) else [];
    PrefixesFirst(c.cidrs, Accept, [], p);
    assert Prefixes(c.cidrs, Accept) + [] == Prefixes(c.cidrs, Accept);
    var third := [ToEndpoint(c.underlay, c.endpoint, Accept)] + last;
    SkipOne(ToEndpoint(c.underlay, c.endpoint, Accept), last, p);
    var second := [OnInterface(c.overlay, Accept)] + third;
    SkipOne(OnInterface(c.overlay, Accept), third, p);
    var denied := if c.mode.Deny? then Prefixes(c.cidrs, Drop) + second else second;
    PrefixesFirst(c.cidrs, Drop, second, p);
    SkipOne(OnInterface(LOOPBACK, Accept), denied, p);
    assert OutputChain(c.underlay, c.endpoint, c.overlay, c.mode, c.cidrs) == [OnInterface(LOOPBACK, Accept)] + denied;
  }

  /** The lockdown policy lets nothing out but loopback. */
  lemma LockdownMeans(endpoint: Endpoint, p: Packet)
    ensures Evaluate(OutputChain(NO_INTERFACE, endpoint, NO_INTERFACE, Gateway, []), p).Accept? <==>
              p.output == LOOPBACK
  {
    SkipOne(OnInterface(LOOPBACK, Accept), [], p);
    assert OutputChain(NO_INTERFACE, endpoint, NO_INTERFACE, Gateway, []) == [OnInterface(LOOPBACK, Accept)] + [];
  }

  // ---- What the routing rules mean ----

  predicate IsDns(p: Packet) {
    !p.transport.Other? && p.port == DNS_PORT
  }

  /** The position, among the IPv4 CIDRs, of the first that contains x. */
  function FirstV4(cidrs: seq<Cidr>, x: Address): Option<nat> {
    if cidrs == [] then None
    else if cidrs[0].V6? then FirstV4(cidrs[1..], x)
    else if Contains(cidrs[0], x) then Some(0)
    else match FirstV4(cidrs[1..], x) case None => None case Some(k) => Some(k + 1)
  }

  lemma {:induction false} FirstV4Exists(cidrs: seq<Cidr>, x: Address)
    ensures FirstV4(cidrs, x).Some? <==> InCluster(cidrs, x)
  {
    if cidrs != [] {
      FirstV4Exists(cidrs[1..], x);
      assert forall i :: 1 <= i < |cidrs| ==> cidrs[i] == cidrs[1..][i - 1];
    }
  }

  lemma {:induction false} LookupConcat(a: seq<PolicyRule>, b: seq<PolicyRule>, p: Packet, best: Option<PolicyRule>)
    ensures Lookup(a + b, p, best) == Lookup(b, p, Lookup(a, p, best))
  {
    if a == [] {
      assert a + b == b;
    } else {
      var r := a[0];
      assert (a + b)[0] == r && (a + b)[1..] == a[1..] + b;
      var better := Selects(r.selector, p) && (best.None? || r.priority < best.value.priority);
      LookupConcat(a[1..], b, p, if better then Some(r) else best);
    }
  }

  /** Cluster rules never displace a better one, and otherwise the first CIDR that
      contains the destination is taken at its own priority. */
  lemma {:induction false} LookupCluster(cidrs: seq<Cidr>, priority: nat, p: Packet, best: Option<PolicyRule>)
    requires WellFormed(cidrs)
    ensures best.Some? && best.value.priority <= priority ==> Lookup(ClusterRules(cidrs, priority), p, best) == best
    ensures best.None? ==>
              var found := Lookup(ClusterRules(cidrs, priority), p, best);
              match FirstV4(cidrs, p.destination)
              case None => found.None?
              case Some(k) => found.Some? && found.value.priority == priority + k && found.value.table.Main?
  {
    if cidrs != [] {
      if cidrs[0].V6? {
        LookupCluster(cidrs[1..], priority, p, best);
      } else {
        MaskIsContainment(cidrs[0], p.destination);
        var r := PolicyRule(priority, Destination(cidrs[0]), Main);
        assert ClusterRules(cidrs, priority)[1..] == ClusterRules(cidrs[1..], priority + 1);
        LookupCluster(cidrs[1..], priority + 1, p, best);
        LookupCluster(cidrs[1..], priority + 1, p, Some(r));
      }
    }
  }

  /** The last cluster position whose rule still comes before the protected default. */
  const LAST_POSITION := PROTECTED_PRIORITY - CLUSTER_PRIORITY

  predicate ClusterRouted(c: Config, p: Packet) {
    && c.mode.Preserve? && !IsDns(p)
    && FirstV4(c.cidrs, p.destination).Some? && FirstV4(c.cidrs, p.destination).value <= LAST_POSITION
  }

  const UDP_RULE := PolicyRule(DNS_UDP_PRIORITY, Dns(UDP), Protected)
  const TCP_RULE := PolicyRule(DNS_TCP_PRIORITY, Dns(TCP), Protected)
  const LAST_RULE := PolicyRule(PROTECTED_PRIORITY, Everything, Protected)

  /** The lookup, rule by rule. */
  lemma RoutingLookup(c: Config, p: Packet)
    ensures var first := PolicyRule(ENDPOINT_PRIORITY, Destination(V4(c.endpoint.address, 32)), Main);
            var cluster := if c.mode.Preserve? then ClusterRules(c.cidrs, CLUSTER_PRIORITY) else [];
            var direct := Keep(TCP_RULE, p, Keep(UDP_RULE, p, Keep(first, p, None)));
            Lookup(PolicyRules(c), p, None) == Keep(LAST_RULE, p, Lookup(cluster, p, direct))
  {
    var first := PolicyRule(ENDPOINT_PRIORITY, Destination(V4(c.endpoint.address, 32)), Main);
    var cluster := if c.mode.Preserve? then ClusterRules(c.cidrs, CLUSTER_PRIORITY) else [];
    var b1 := Keep(first, p, None);
    var b2 := Keep(UDP_RULE, p, b1);
    var b3 := Keep(TCP_RULE, p, b2);
    assert PolicyRules(c) == [first] + ([UDP_RULE] + ([TCP_RULE] + (cluster + [LAST_RULE])));
    LookupOne(first, [UDP_RULE] + ([TCP_RULE] + (cluster + [LAST_RULE])), p, None);
    LookupOne(UDP_RULE, [TCP_RULE] + (cluster + [LAST_RULE]), p, b1);
    LookupOne(TCP_RULE, cluster + [LAST_RULE], p, b2);
    LookupConcat(cluster, [LAST_RULE], p, b3);
    assert [LAST_RULE] + [] == [LAST_RULE];
    LookupOne(LAST_RULE, [], p, Lookup(cluster, p, b3));
  }

  /** The main table is used for the gateway endpoint and for preserved cluster
      destinations that are not DNS, and every other packet takes the protected one. */
  lemma RoutingMeans(c: Config, p: Packet)
    requires ValidConfig(c)
    ensures var found := Lookup(PolicyRules(c), p, None);
            found.Some? && (found.value.table.Main? <==> p.destination == c.endpoint.address || ClusterRouted(c, p))
  {
    var host := V4(c.endpoint.address, 32);
    MaskIsContainment(host, p.destination);
    assert p.destination[..32] == p.destination && host.address[..32] == host.address;
    var first := PolicyRule(ENDPOINT_PRIORITY, Destination(host), Main);
    RoutingLookup(c, p);
    LookupCluster(c.cidrs, CLUSTER_PRIORITY, p, Keep(TCP_RULE, p, Keep(UDP_RULE, p, Keep(first, p, None))));
  }

  function Keep(r: PolicyRule, p: Packet, best: Option<PolicyRule>): Option<PolicyRule> {
    if Selects(r.selector, p) && (best.None? || r.priority < best.value.priority) then Some(r) else best
  }

  lemma LookupOne(r: PolicyRule, rest: seq<PolicyRule>, p: Packet, best: Option<PolicyRule>)
    ensures Lookup([r] + rest, p, best) == Lookup(rest, p, Keep(r, p, best))
  {
    assert ([r] + rest)[1..] == rest;
  }

  /** The protected table routes only through the overlay. */
  predicate Routed(c: Config, p: Packet) {
    var found := Lookup(PolicyRules(c), p, None);
    found.Some? && found.value.table.Protected? ==> p.output == c.overlay
  }

  /** Nothing the workload sends leaves outside the overlay except the tunnel's own
      flow to its endpoint and, where preserved, cluster destinations. DNS leaves only
      when it is addressed to the endpoint itself. */
  lemma OnlyTheTunnelLeaves(c: Config, p: Packet)
    requires ValidConfig(c)
    requires p.output != LOOPBACK && p.output != c.overlay
    requires Routed(c, p)
    requires Evaluate(OutputChain(c.underlay, c.endpoint, c.overlay, c.mode, c.cidrs), p).Accept?
    ensures || EndpointFlow(c, p)
            || (c.mode.Preserve? && InCluster(c.cidrs, p.destination)
                && (IsDns(p) ==> p.destination == c.endpoint.address))
  {
    ChainMeans(c, p);
    RoutingMeans(c, p);
  }

  /** DNS to a cluster address cannot bypass the tunnel, in any mode. */
  lemma DnsStaysInTheTunnel(c: Config, p: Packet)
    requires ValidConfig(c)
    requires IsDns(p) && p.destination != c.endpoint.address
    requires Routed(c, p)
    requires Evaluate(OutputChain(c.underlay, c.endpoint, c.overlay, c.mode, c.cidrs), p).Accept?
    ensures p.output == c.overlay
  {
    RoutingMeans(c, p);
  }

  /** Which preserved destinations the main table routes, for a list of any length:
      those whose first containing CIDR still has a priority before the default. */
  lemma PreservedIsRoutedMain(c: Config, p: Packet)
    requires ValidConfig(c) && c.mode.Preserve? && InCluster(c.cidrs, p.destination)
    requires !IsDns(p) && p.destination != c.endpoint.address
    ensures var found := Lookup(PolicyRules(c), p, None);
            found.Some?
              && (found.value.table.Main? <==>
                FirstV4(c.cidrs, p.destination).Some? && FirstV4(c.cidrs, p.destination).value <= LAST_POSITION)
  {
    FirstV4Exists(c.cidrs, p.destination);
    RoutingMeans(c, p);
  }

  /** The longest list a gateway or a binding can carry. */
  const MAX_BYPASS_CIDRS := 64

  lemma {:induction false} FirstV4Bounded(cidrs: seq<Cidr>, x: Address)
    ensures FirstV4(cidrs, x).Some? ==> FirstV4(cidrs, x).value < |cidrs|
  {
    if cidrs != [] {
      FirstV4Bounded(cidrs[1..], x);
    }
  }

  /** Filter and routing agree on what Preserve preserves: for every list a binding can
      carry, a packet outside DNS and the endpoint is routed by the main table exactly
      when its destination is in a cluster CIDR, and the output chain then accepts it
      on whatever interface that table names. */
  lemma PreservedReachesTheCluster(c: Config, p: Packet)
    requires ValidConfig(c) && c.mode.Preserve? && |c.cidrs| <= MAX_BYPASS_CIDRS
    requires !IsDns(p) && p.destination != c.endpoint.address
    ensures var found := Lookup(PolicyRules(c), p, None);
            found.Some? && (found.value.table.Main? <==> InCluster(c.cidrs, p.destination))
    ensures InCluster(c.cidrs, p.destination) ==>
              Evaluate(OutputChain(c.underlay, c.endpoint, c.overlay, c.mode, c.cidrs), p).Accept?
  {
    FirstV4Exists(c.cidrs, p.destination);
    FirstV4Bounded(c.cidrs, p.destination);
    RoutingMeans(c, p);
    ChainMeans(c, p);
  }
}
