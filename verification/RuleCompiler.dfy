/**
 What a service port's chains, verdict elements and affinity sets should be, stated once per
 object: the target that the transaction-writing code in RuleWriter and ServiceWriter is proved to reach.
 */
module RuleCompiler {
  import opened Strings
  import opened ProxyTypes
  import opened Topology
  import opened Nftables

  type ScoreMap = map<string, int>

  datatype NodeAddress = NodeAddress(ip: string, loopback: bool)

  /** What stays fixed during a run: flags, the node, and what is read only by a full sync. */
  datatype Config = Config(
    masqueradeAll: bool,
    localDetector: bool,
    nodePortMatchAll: bool,
    nodeAddresses: seq<NodeAddress>,
    serviceCIDRs: seq<Cidr>,
    nodeIP: string,
    gates: Gates)

  datatype Element = Element(container: Container, key: Key, value: ElementValue)

  // ---- Stock chains ----

  function JumpIfNew(c: StockChain): Rule { Rule([CtStateNew], Jump(Stock(c))) }

  function NodePortMatches(cfg: Config, dispatch: bool): seq<Match> {
    if cfg.nodePortMatchAll
    then (if dispatch then [DaddrTypeLocal] else []) + [DaddrNotLocalhost]
    else [DaddrInNodePortIPs]
  }

  function StockRules(cfg: Config, s: StockChain): seq<Rule> {
    match s
    case FilterPrerouting => [JumpIfNew(FirewallCheck)]
    case FilterInput => [JumpIfNew(NodePortEndpointsCheck), JumpIfNew(ServiceEndpointsCheck)]
    case FilterForward => [JumpIfNew(ServiceEndpointsCheck), JumpIfNew(ClusterIPsCheck)]
    case FilterOutput => [JumpIfNew(ServiceEndpointsCheck), JumpIfNew(FirewallCheck)]
    case FilterOutputPostDNAT => [JumpIfNew(ClusterIPsCheck)]
    case NatPrerouting => [Rule([], Jump(Stock(Services)))]
    case NatOutput => [Rule([], Jump(Stock(Services)))]
    case NatPostrouting => [Rule([], Jump(Stock(Masquerading)))]
    case MarkMasq => [Rule([], SetMark)]
    case Masquerading => [Rule([MarkIsClear], Return), Rule([], ClearMark), Rule([], Masquerade)]
    case ClusterIPsCheck =>
      [Rule([DaddrInClusterIPs], Reject)]
      + (if cfg.serviceCIDRs != [] then [Rule([DaddrInRanges(cfg.serviceCIDRs)], Drop)] else [])
    case RejectChain => [Rule([], Reject)]
    case ServiceEndpointsCheck => [Rule([], AddrVmap(NoEndpointServices))]
    case NodePortEndpointsCheck => [Rule(NodePortMatches(cfg, false), PortVmap(NoEndpointNodePorts))]
    case FirewallCheck => [Rule([], AddrVmap(FirewallIPs))]
    case Services => [Rule([], AddrVmap(ServiceIPs)), Rule(NodePortMatches(cfg, true), PortVmap(ServiceNodePorts))]
  }

  // ---- Dispatch among endpoints ----

  function EpChain(spn: ServicePortName, e: Endpoint): Chain { EndpointChain(spn, e.ip, e.port) }

  function EpSet(spn: ServicePortName, e: Endpoint): SetName { AffinitySet(spn, e.ip, e.port) }

  function EpChains(spn: ServicePortName, eps: seq<Endpoint>): set<Chain> {
    set e | e in eps :: EpChain(spn, e)
  }

  function EpSets(spn: ServicePortName, eps: seq<Endpoint>): set<SetName> {
    set e | e in eps :: EpSet(spn, e)
  }

  function If<T(==)>(b: bool, x: T): set<T> { if b then {x} else {} }

  function ScoreOf(scores: ScoreMap, ip: string): int {
    if ip in scores then scores[ip] else 0
  }

  predicate UsesWao(eps: seq<Endpoint>, sc: Option<ScoreMap>) {
    sc.Some? && exists i :: 0 <= i < |eps| && ScoreOf(sc.value, eps[i].ip) > 0
  }

  /** The weights of the positively scored endpoints of the list, summed. */
  function TotalScore(eps: seq<Endpoint>, scores: ScoreMap): nat {
    if eps == [] then 0
    else
      var s := ScoreOf(scores, eps[|eps| - 1].ip);
      TotalScore(eps[..|eps| - 1], scores) + (if s > 0 then s else 0)
  }

  function WaoArms(spn: ServicePortName, eps: seq<Endpoint>, scores: ScoreMap): seq<Arm> {
    if eps == [] then []
    else
      var init, last := eps[..|eps| - 1], eps[|eps| - 1];
      var s, at := ScoreOf(scores, last.ip), TotalScore(init, scores);
      WaoArms(spn, init, scores) + (if s > 0 then [Arm(at, at + s - 1, EpChain(spn, last))] else [])
  }

  function EvenArms(spn: ServicePortName, eps: seq<Endpoint>): (arms: seq<Arm>)
    ensures |arms| == |eps|
    ensures forall i :: 0 <= i < |eps| ==> arms[i] == Arm(i, i, EpChain(spn, eps[i]))
  {
    if eps == [] then []
    else EvenArms(spn, eps[..|eps| - 1]) + [Arm(|eps| - 1, |eps| - 1, EpChain(spn, eps[|eps| - 1]))]
  }

  function DispatchRule(spn: ServicePortName, eps: seq<Endpoint>, sc: Option<ScoreMap>): Rule {
    if UsesWao(eps, sc)
    then Rule([], NumgenVmap(TotalScore(eps, sc.value), WaoArms(spn, eps, sc.value)))
    else Rule([], NumgenVmap(|eps|, EvenArms(spn, eps)))
  }

  function AffinityRules(spn: ServicePortName, eps: seq<Endpoint>): (rules: seq<Rule>)
    ensures |rules| == |eps|
    ensures forall i :: 0 <= i < |eps| ==>
              rules[i] == Rule([SaddrInSet(EpSet(spn, eps[i]))], Goto(EpChain(spn, eps[i])))
  {
    if eps == [] then []
    else
      var last := eps[|eps| - 1];
      AffinityRules(spn, eps[..|eps| - 1]) + [Rule([SaddrInSet(EpSet(spn, last))], Goto(EpChain(spn, last)))]
  }

  function PolicyRules(spn: ServicePortName, svc: ServicePort, eps: seq<Endpoint>, sc: Option<ScoreMap>): seq<Rule> {
    (if svc.clientIPAffinity then AffinityRules(spn, eps) else []) + [DispatchRule(spn, eps, sc)]
  }

  function EndpointRules(spn: ServicePortName, svc: ServicePort, ip: string, port: nat): seq<Rule> {
    [Rule([SaddrIs(ip)], Jump(Stock(MarkMasq)))]
    + (if svc.clientIPAffinity then [Rule([], UpdateAffinity(AffinitySet(spn, ip, port)))] else [])
    + [Rule([L4ProtocolIs(svc.protocol)], Dnat(ip, port))]
  }

  // ---- One service port ----

  /** A service port with its categorised endpoints: everything its rules depend on besides scores and Config. */
  datatype Plan = Plan(
    spn: ServicePortName,
    svc: ServicePort,
    cluster: seq<Endpoint>,
    local: seq<Endpoint>,
    hasEndpoints: bool)
  {
    predicate UsesClusterChain() { |cluster| > 0 && svc.UsesClusterEndpoints() }
    predicate UsesLocalChain() { |local| > 0 && svc.UsesLocalEndpoints() }
    predicate UsesExternalChain() { hasEndpoints && svc.ExternallyAccessible() }
    predicate UsesFirewallChain() { |svc.loadBalancerVIPs| > 0 && |svc.loadBalancerSourceRanges| > 0 }
    predicate HasInternal() { hasEndpoints && (svc.internalPolicyLocal ==> |local| > 0) }
    predicate HasExternal() { hasEndpoints && (svc.externalPolicyLocal ==> |local| > 0) }

    function ClusterChain(): Chain { ServiceChain(ClusterPolicy, spn) }
    function LocalChain(): Chain { ServiceChain(LocalPolicy, spn) }
    function ExternalChain(): Chain { ServiceChain(External, spn) }
    function FirewallChain(): Chain { ServiceChain(Firewall, spn) }
    function InternalPolicyChain(): Chain { if svc.internalPolicyLocal then LocalChain() else ClusterChain() }
    function ExternalPolicyChain(): Chain { if svc.externalPolicyLocal then LocalChain() else ClusterChain() }
    function RefusalValue(): ElementValue { if hasEndpoints then DropPacket else GotoChain(Stock(RejectChain)) }

    /** The facts about policy lists that rule writing relies on. */
    ghost predicate Consistent() {
      && svc.protocol == spn.protocol
      && svc.PrintableIPs()
      && (svc.UsesClusterEndpoints() ==> (cluster != [] <==> hasEndpoints))
      && (!svc.UsesClusterEndpoints() ==> cluster == [])
      && (!svc.UsesLocalEndpoints() ==> local == [])
      && (local != [] ==> hasEndpoints)
      && UniqueAddresses(cluster) && UniqueAddresses(local)
    }

    /** The service port's own chains. */
    function OwnChains(): set<Chain> {
      EpChains(spn, cluster) + EpChains(spn, local)
      + If(UsesClusterChain(), ClusterChain()) + If(UsesLocalChain(), LocalChain())
      + If(UsesExternalChain(), ExternalChain()) + If(UsesFirewallChain(), FirewallChain())
    }

    /** Its affinity sets. */
    function OwnSets(): set<SetName> {
      if svc.clientIPAffinity then EpSets(spn, cluster) + EpSets(spn, local) else {}
    }

    function InternalRules(cfg: Config): seq<Rule> {
      var frontend := [DaddrIs(svc.clusterIP), DportIs(svc.protocol, svc.port)];
      if !HasInternal() then []
      else if cfg.masqueradeAll then [Rule(frontend, Jump(Stock(MarkMasq)))]
      else if cfg.localDetector then [Rule(frontend + [NotFromLocalPod], Jump(Stock(MarkMasq)))]
      else []
    }

    function ExternalRules(cfg: Config): seq<Rule> {
      if !UsesExternalChain() then []
      else
        (if !svc.externalPolicyLocal then [Rule([], Jump(Stock(MarkMasq)))]
         else
           (if cfg.localDetector then [Rule([FromLocalPod], Goto(ClusterChain()))] else [])
           + [Rule([SaddrTypeLocal], Jump(Stock(MarkMasq))),
              Rule([SaddrTypeLocal], Goto(ClusterChain()))])
        + (if HasExternal() then [Rule([], Goto(ExternalPolicyChain()))] else [])
    }

    /** The node may reach the VIPs when a source range admits it. */
    predicate AllowFromNode(cfg: Config) {
      exists i :: 0 <= i < |svc.loadBalancerSourceRanges| && cfg.nodeIP in svc.loadBalancerSourceRanges[i].members
    }

    function FirewallRules(cfg: Config): seq<Rule> {
      if !UsesFirewallChain() then []
      else [Rule([SaddrNotIn(svc.loadBalancerSourceRanges, if AllowFromNode(cfg) then svc.loadBalancerVIPs else [])],
                 Drop)]
    }

    /** The rules a chain of this service port should hold. */
    function WantRules(c: Chain, sc: Option<ScoreMap>, cfg: Config): seq<Rule> {
      match c
      case Stock(_) => []
      case ServiceChain(ClusterPolicy, _) =>
        (if svc.internalPolicyLocal then [] else InternalRules(cfg)) + PolicyRules(spn, svc, cluster, sc)
      case ServiceChain(LocalPolicy, _) =>
        (if svc.internalPolicyLocal then InternalRules(cfg) else []) + PolicyRules(spn, svc, local, sc)
      case ServiceChain(External, _) => ExternalRules(cfg)
      case ServiceChain(Firewall, _) => FirewallRules(cfg)
      case EndpointChain(_, ip, port) => EndpointRules(spn, svc, ip, port)
    }

    // ---- Verdict elements, in the order the source writes them ----

    function AddrKey(ip: string): Key { [ip, ProtocolText(svc.protocol), Itoa(svc.port)] }
    function NodePortKey(): Key { [ProtocolText(svc.protocol), Itoa(svc.nodePort)] }

    function ClusterIPElements(): seq<Element> {
      [Element(ClusterIPs, [svc.clusterIP], Member),
       if HasInternal() then Element(ServiceIPs, AddrKey(svc.clusterIP), GotoChain(InternalPolicyChain()))
       else Element(NoEndpointServices, AddrKey(svc.clusterIP), RefusalValue())]
    }

    function ToExternal(ip: string): seq<Element> {
      if hasEndpoints then [Element(ServiceIPs, AddrKey(ip), GotoChain(ExternalChain()))] else []
    }

    function NoExternal(ip: string): seq<Element> {
      if HasExternal() then [] else [Element(NoEndpointServices, AddrKey(ip), RefusalValue())]
    }

    function ToFirewall(ip: string): seq<Element> {
      if UsesFirewallChain() then [Element(FirewallIPs, AddrKey(ip), GotoChain(FirewallChain()))] else []
    }

    function ExternalIPElements(n: nat): seq<Element>
      requires n <= |svc.externalIPs|
    {
      if n == 0 then []
      else ExternalIPElements(n - 1) + ToExternal(svc.externalIPs[n - 1]) + NoExternal(svc.externalIPs[n - 1])
    }

    function LoadBalancerElements(n: nat): seq<Element>
      requires n <= |svc.loadBalancerVIPs|
    {
      if n == 0 then []
      else LoadBalancerElements(n - 1) + ToExternal(svc.loadBalancerVIPs[n - 1])
           + ToFirewall(svc.loadBalancerVIPs[n - 1])
    }

    function NoLoadBalancerElements(n: nat): seq<Element>
      requires n <= |svc.loadBalancerVIPs|
    {
      if n == 0 then [] else NoLoadBalancerElements(n - 1) + NoExternal(svc.loadBalancerVIPs[n - 1])
    }

    function NodePortElements(): seq<Element> {
      if svc.nodePort == 0 then []
      else
        (if hasEndpoints then [Element(ServiceNodePorts, NodePortKey(), GotoChain(ExternalChain()))] else [])
        + (if HasExternal() then [] else [Element(NoEndpointNodePorts, NodePortKey(), RefusalValue())])
    }

    function Elements(): seq<Element> {
      ClusterIPElements()
      + ExternalIPElements(|svc.externalIPs|)
      + LoadBalancerElements(|svc.loadBalancerVIPs|)
      + NoLoadBalancerElements(|svc.loadBalancerVIPs|)
      + NodePortElements()
    }
  }

  function MakePlan(spn: ServicePortName, svc: ServicePort, eps: seq<Endpoint>, labels: map<string, string>,
                    gates: Gates): Plan {
    Plan(spn, svc, ClusterEndpoints(eps, svc, labels, gates), LocalEndpoints(eps, svc), HasUsable(eps))
  }

  lemma MakePlanConsistent(spn: ServicePortName, svc: ServicePort, eps: seq<Endpoint>, labels: map<string, string>,
                           gates: Gates)
    requires svc.protocol == spn.protocol && svc.PrintableIPs() && UniqueAddresses(eps)
    ensures MakePlan(spn, svc, eps, labels, gates).Consistent()
  {
    if svc.UsesClusterEndpoints() {
      ClusterNonEmptyIffUsable(eps, svc, labels, gates);
    }
    ListsAreSound(eps, svc, labels, gates);
    var local := LocalEndpoints(eps, svc);
    assert local != [] ==> local[0] in eps && local[0].Usable();
  }

  // ---- A service port's rules stay within its own chains, the stock chains and its own sets ----

  /** What a rule of plan `p` may name. */
  ghost predicate StaysWithin(p: Plan, r: Rule) {
    && (forall c :: RuleTargets(r, c) ==> c in p.OwnChains() || c == Stock(MarkMasq))
    && (forall s :: RuleUsesSet(r, s) ==> s in p.OwnSets())
    && (forall m :: !RuleUsesContainer(r, m))
  }

  ghost predicate AllStayWithin(p: Plan, rules: seq<Rule>) {
    forall i :: 0 <= i < |rules| ==> StaysWithin(p, rules[i])
  }

  lemma StayWithinConcat(p: Plan, a: seq<Rule>, b: seq<Rule>)
    requires AllStayWithin(p, a) && AllStayWithin(p, b)
    ensures AllStayWithin(p, a + b)
  {
  }

  lemma {:induction false} WaoArmsReach(spn: ServicePortName, eps: seq<Endpoint>, scores: ScoreMap, j: nat)
    requires j < |WaoArms(spn, eps, scores)|
    ensures WaoArms(spn, eps, scores)[j].target in EpChains(spn, eps)
    decreases |eps|
  {
    var init := eps[..|eps| - 1];
    var arms, before := WaoArms(spn, eps, scores), WaoArms(spn, init, scores);
    if j < |before| {
      WaoArmsReach(spn, init, scores, j);
      assert EpChains(spn, init) <= EpChains(spn, eps) by {
        assert forall e :: e in init ==> e in eps;
      }
    } else {
      assert eps[|eps| - 1] in eps;
    }
  }

  /** Every dispatch arm leads to the chain of an endpoint of the list. */
  lemma DispatchReaches(spn: ServicePortName, eps: seq<Endpoint>, sc: Option<ScoreMap>, c: Chain)
    requires RuleTargets(DispatchRule(spn, eps, sc), c)
    ensures c in EpChains(spn, eps)
  {
    if UsesWao(eps, sc) {
      var arms := WaoArms(spn, eps, sc.value);
      var j :| 0 <= j < |arms| && arms[j].target == c;
      WaoArmsReach(spn, eps, sc.value, j);
    } else {
      var arms := EvenArms(spn, eps);
      var j :| 0 <= j < |arms| && arms[j].target == c;
      assert eps[j] in eps && c == EpChain(spn, eps[j]);
    }
  }

  lemma PolicyRulesStayWithin(p: Plan, eps: seq<Endpoint>, sc: Option<ScoreMap>)
    requires eps == p.cluster || eps == p.local
    ensures AllStayWithin(p, PolicyRules(p.spn, p.svc, eps, sc))
  {
    hide StaysWithin, DispatchRule, Plan.OwnChains, Plan.OwnSets;
    var affinity := if p.svc.clientIPAffinity then AffinityRules(p.spn, eps) else [];
    DispatchStaysWithin(p, eps, sc);
    forall i | 0 <= i < |affinity|
      ensures StaysWithin(p, affinity[i])
    {
      AffinityStaysWithin(p, eps, i);
    }
    StayWithinConcat(p, affinity, [DispatchRule(p.spn, eps, sc)]);
  }

  lemma DispatchStaysWithin(p: Plan, eps: seq<Endpoint>, sc: Option<ScoreMap>)
    requires eps == p.cluster || eps == p.local
    ensures StaysWithin(p, DispatchRule(p.spn, eps, sc))
  {
    var dispatch := DispatchRule(p.spn, eps, sc);
    assert dispatch.matches == [] && dispatch.action.NumgenVmap?;
    hide DispatchRule;
    forall c | RuleTargets(dispatch, c)
      ensures c in p.OwnChains()
    {
      DispatchReaches(p.spn, eps, sc, c);
    }
  }

  lemma AffinityStaysWithin(p: Plan, eps: seq<Endpoint>, i: nat)
    requires (eps == p.cluster || eps == p.local) && i < |eps| && p.svc.clientIPAffinity
    ensures StaysWithin(p, Rule([SaddrInSet(EpSet(p.spn, eps[i]))], Goto(EpChain(p.spn, eps[i]))))
  {
    assert eps[i] in eps;
    assert EpChain(p.spn, eps[i]) in EpChains(p.spn, eps) && EpSet(p.spn, eps[i]) in EpSets(p.spn, eps);
  }

  lemma InternalRulesStayWithin(p: Plan, cfg: Config)
    ensures AllStayWithin(p, p.InternalRules(cfg))
  {
  }

  /** A rule whose matches name no set, leading to an own chain or the masquerade mark. */
  lemma PlainRuleStaysWithin(p: Plan, m: seq<Match>, a: Action)
    requires m == [] || m == [FromLocalPod] || m == [SaddrTypeLocal]
    requires a == Jump(Stock(MarkMasq)) || (a.Goto? && a.target in p.OwnChains())
    ensures AllStayWithin(p, [Rule(m, a)])
  {
  }

  lemma ExternalRulesStayWithin(p: Plan, cfg: Config)
    requires p.Consistent()
    ensures AllStayWithin(p, p.ExternalRules(cfg))
  {
    if p.UsesExternalChain() {
      var mark, toCluster := Jump(Stock(MarkMasq)), Goto(p.ClusterChain());
      PlainRuleStaysWithin(p, [], mark);
      PlainRuleStaysWithin(p, [SaddrTypeLocal], mark);
      PlainRuleStaysWithin(p, [SaddrTypeLocal], toCluster);
      PlainRuleStaysWithin(p, [FromLocalPod], toCluster);
      var local := (if cfg.localDetector then [Rule([FromLocalPod], toCluster)] else [])
        + [Rule([SaddrTypeLocal], mark), Rule([SaddrTypeLocal], toCluster)];
      var first := if p.svc.externalPolicyLocal then local else [Rule([], mark)];
      StayWithinConcat(p, [Rule([SaddrTypeLocal], mark)], [Rule([SaddrTypeLocal], toCluster)]);
      StayWithinConcat(p, if cfg.localDetector then [Rule([FromLocalPod], toCluster)] else [],
                       [Rule([SaddrTypeLocal], mark), Rule([SaddrTypeLocal], toCluster)]);
      if p.HasExternal() {
        PlainRuleStaysWithin(p, [], Goto(p.ExternalPolicyChain()));
        StayWithinConcat(p, first, [Rule([], Goto(p.ExternalPolicyChain()))]);
      }
      assert p.ExternalRules(cfg) ==
               first + (if p.HasExternal() then [Rule([], Goto(p.ExternalPolicyChain()))] else []);
    }
  }

  lemma EndpointRulesStayWithin(p: Plan, ip: string, port: nat)
    requires p.svc.clientIPAffinity ==> AffinitySet(p.spn, ip, port) in p.OwnSets()
    ensures AllStayWithin(p, EndpointRules(p.spn, p.svc, ip, port))
  {
  }

  lemma OwnSetOfOwnChain(p: Plan, c: Chain)
    requires c.EndpointChain? && c in p.OwnChains()
    ensures p.svc.clientIPAffinity ==> AffinitySet(p.spn, c.ip, c.port) in p.OwnSets()
  {
    if c in EpChains(p.spn, p.cluster) {
      var e :| e in p.cluster && EpChain(p.spn, e) == c;
      assert EpSet(p.spn, e) in EpSets(p.spn, p.cluster);
    } else {
      var e :| e in p.local && EpChain(p.spn, e) == c;
      assert EpSet(p.spn, e) in EpSets(p.spn, p.local);
    }
  }

  lemma WantRulesStayWithin(p: Plan, c: Chain, sc: Option<ScoreMap>, cfg: Config)
    requires p.Consistent() && c in p.OwnChains()
    ensures AllStayWithin(p, p.WantRules(c, sc, cfg))
  {
    InternalRulesStayWithin(p, cfg);
    match c
    case ServiceChain(ClusterPolicy, _) =>
      PolicyRulesStayWithin(p, p.cluster, sc);
      StayWithinConcat(p, if p.svc.internalPolicyLocal then [] else p.InternalRules(cfg),
                       PolicyRules(p.spn, p.svc, p.cluster, sc));
    case ServiceChain(LocalPolicy, _) =>
      PolicyRulesStayWithin(p, p.local, sc);
      StayWithinConcat(p, if p.svc.internalPolicyLocal then p.InternalRules(cfg) else [],
                       PolicyRules(p.spn, p.svc, p.local, sc));
    case ServiceChain(External, _) =>
      ExternalRulesStayWithin(p, cfg);
    case ServiceChain(Firewall, _) =>
    case EndpointChain(_, ip, port) =>
      OwnSetOfOwnChain(p, c);
      EndpointRulesStayWithin(p, ip, port);
  }

  /** Every verdict element leads to a chain that exists: this is where the policy-list facts are needed. */
  ghost predicate LeadsWithin(p: Plan, e: Element) {
    && SpaceFreeKey(e.key)
    && (e.value.GotoChain? ==> e.value.chain in p.OwnChains() || e.value.chain == Stock(RejectChain))
  }

  ghost predicate AllLeadWithin(p: Plan, es: seq<Element>) {
    forall i :: 0 <= i < |es| ==> LeadsWithin(p, es[i])
  }

  lemma LeadWithinConcat(p: Plan, a: seq<Element>, b: seq<Element>)
    requires AllLeadWithin(p, a) && AllLeadWithin(p, b)
    ensures AllLeadWithin(p, a + b)
  {
  }

  lemma KeysSpaceFree(p: Plan, ip: string)
    requires SpaceFree(ip)
    ensures SpaceFreeKey(p.AddrKey(ip)) && SpaceFreeKey(p.NodePortKey()) && SpaceFreeKey([ip])
  {
    assert SpaceFree(Itoa(p.svc.port)) && SpaceFree(Itoa(p.svc.nodePort));
  }

  /** The elements of one external address. */
  lemma AddressLeadsWithin(p: Plan, ip: string)
    requires p.Consistent() && SpaceFree(ip) && p.svc.ExternallyAccessible()
    ensures AllLeadWithin(p, p.ToExternal(ip))
    ensures AllLeadWithin(p, p.NoExternal(ip))
    ensures AllLeadWithin(p, p.ToFirewall(ip))
  {
    KeysSpaceFree(p, ip);
  }

  lemma ClusterIPElementsLeadWithin(p: Plan)
    requires p.Consistent()
    ensures AllLeadWithin(p, p.ClusterIPElements())
  {
    KeysSpaceFree(p, p.svc.clusterIP);
    assert p.HasInternal() ==> p.InternalPolicyChain() in p.OwnChains();
  }

  lemma NodePortElementsLeadWithin(p: Plan)
    requires p.Consistent()
    ensures AllLeadWithin(p, p.NodePortElements())
  {
    KeysSpaceFree(p, p.svc.clusterIP);
  }

  lemma {:induction false} ExternalElementsLeadWithin(p: Plan, n: nat)
    requires p.Consistent() && n <= |p.svc.externalIPs|
    ensures AllLeadWithin(p, p.ExternalIPElements(n))
  {
    if n > 0 {
      var ip := p.svc.externalIPs[n - 1];
      ExternalElementsLeadWithin(p, n - 1);
      AddressLeadsWithin(p, ip);
      LeadWithinConcat(p, p.ExternalIPElements(n - 1), p.ToExternal(ip));
      LeadWithinConcat(p, p.ExternalIPElements(n - 1) + p.ToExternal(ip), p.NoExternal(ip));
    }
  }

  lemma {:induction false} LoadBalancerElementsLeadWithin(p: Plan, n: nat)
    requires p.Consistent() && n <= |p.svc.loadBalancerVIPs|
    ensures AllLeadWithin(p, p.LoadBalancerElements(n))
    ensures AllLeadWithin(p, p.NoLoadBalancerElements(n))
  {
    if n > 0 {
      var ip := p.svc.loadBalancerVIPs[n - 1];
      LoadBalancerElementsLeadWithin(p, n - 1);
      AddressLeadsWithin(p, ip);
      LeadWithinConcat(p, p.LoadBalancerElements(n - 1), p.ToExternal(ip));
      LeadWithinConcat(p, p.LoadBalancerElements(n - 1) + p.ToExternal(ip), p.ToFirewall(ip));
      LeadWithinConcat(p, p.NoLoadBalancerElements(n - 1), p.NoExternal(ip));
    }
  }

  lemma ElementsLeadWithin(p: Plan)
    requires p.Consistent()
    ensures AllLeadWithin(p, p.Elements())
  {
    var n := |p.svc.loadBalancerVIPs|;
    ClusterIPElementsLeadWithin(p);
    ExternalElementsLeadWithin(p, |p.svc.externalIPs|);
    LoadBalancerElementsLeadWithin(p, n);
    NodePortElementsLeadWithin(p);
    var a := p.ClusterIPElements() + p.ExternalIPElements(|p.svc.externalIPs|);
    LeadWithinConcat(p, p.ClusterIPElements(), p.ExternalIPElements(|p.svc.externalIPs|));
    LeadWithinConcat(p, a, p.LoadBalancerElements(n));
    LeadWithinConcat(p, a + p.LoadBalancerElements(n), p.NoLoadBalancerElements(n));
    LeadWithinConcat(p, a + p.LoadBalancerElements(n) + p.NoLoadBalancerElements(n), p.NodePortElements());
  }
}
