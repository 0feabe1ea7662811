/** Packets the node itself sends: the output hooks, where the filter chain runs before destination translation. */
module PacketOutput {
  import opened ProxyTypes
  import opened Topology
  import opened Nftables
  import opened RuleCompiler
  import opened ElementStorage
  import opened SyncState
  import EndpointSlices
  import opened EndpointTracker
  import opened ProxierRuns
  import opened Frontends
  import opened Packets
  import opened PacketChains
  import opened PacketMeaning
  import opened PacketRuns

  // ---- The interpreter ----

  /** The filter hook after destination translation, then source translation. */
  function AfterOutput(k: Kernel, env: Env, p: Packet, t: Trace): Fate {
    var f := EvalChain(k, env, p, Stock(FilterOutputPostDNAT), t, DEPTH);
    if f.verdict == Drops then Dropped
    else if f.verdict == Rejects then Rejected
    else if f.verdict != Ran then Broken
    else
      var s := EvalChain(k, env, p, Stock(NatPostrouting), f.trace, DEPTH);
      if s.verdict != Ran && s.verdict != Masquerades then Broken
      else Accepted(p.daddr, p.dport, s.verdict == Masquerades, s.trace.learned)
  }

  /** Output: filter, then destination translation. */
  function TraverseOutput(k: Kernel, env: Env, p: Packet): Fate {
    var f := EvalChain(k, env, p, Stock(FilterOutput), Trace(false, {}), DEPTH);
    if f.verdict == Drops then Dropped
    else if f.verdict == Rejects then Rejected
    else if f.verdict != Ran then Broken
    else
      var d := EvalChain(k, env, p, Stock(NatOutput), f.trace, DEPTH);
      if d.verdict.Translates? then AfterOutput(k, env, p.(daddr := d.verdict.ip, dport := d.verdict.port), d.trace)
      else if d.verdict == Ran then AfterOutput(k, env, p, d.trace)
      else Broken
  }

  // ---- What services promise ----

  /** Delivery to an endpoint of the list; locally sent packets pass source translation wherever they go. */
  ghost function Emit(k: Kernel, p: Plan, eps: seq<Endpoint>, sc: Option<ScoreMap>, env: Env, pkt: Packet,
                      marked: bool): Fate
    requires eps != []
  {
    var e := Chosen(k, p, eps, sc, pkt.saddr, env.random);
    Accepted(e.ip, e.port, marked || pkt.saddr == e.ip, if p.svc.clientIPAffinity then {EpSet(p.spn, e)} else {})
  }

  /** The filter chain refuses before any short-circuit of the external chain is reached. */
  ghost function OutputFate(k: Kernel, p: Plan, sc: Option<ScoreMap>, cfg: Config, env: Env, pkt: Packet): Fate
    requires p.Consistent() && (pkt.daddr != p.svc.clusterIP ==> p.svc.ExternallyAccessible())
  {
    if !p.hasEndpoints then Rejected
    else if pkt.daddr == p.svc.clusterIP then
      if p.svc.internalPolicyLocal && p.local == [] then Dropped
      else Emit(k, p, if p.svc.internalPolicyLocal then p.local else p.cluster, sc, env, pkt,
                cfg.masqueradeAll || (cfg.localDetector && !env.fromPod))
    else if p.svc.externalPolicyLocal && p.local == [] then Dropped
    else if Forbidden(p, cfg, pkt) then Dropped
    else if !p.svc.externalPolicyLocal then Emit(k, p, p.cluster, sc, env, pkt, true)
    else if cfg.localDetector && env.fromPod then Emit(k, p, p.cluster, sc, env, pkt, false)
    else if pkt.saddr in env.local then Emit(k, p, p.cluster, sc, env, pkt, true)
    else Emit(k, p, p.local, sc, env, pkt, false)
  }

  /** No endpoint has an address of the service network. */
  ghost predicate OffServiceNetwork(plans: Plans, cfg: Config) {
    forall n, e :: n in plans && (e in plans[n].cluster || e in plans[n].local) ==>
      !IsClusterIP(plans, e.ip) && !InRanges(cfg.serviceCIDRs, e.ip)
  }

  // ---- Stages ----

  lemma FilterOutputEval(k: Kernel, cfg: Config, env: Env, p: Packet, t: Trace)
    requires AllStock(k, cfg) && Refusal(NoEndpointAt(k, p))
    ensures EvalChain(k, env, p, Stock(FilterOutput), t, DEPTH) ==
            if NoEndpointAt(k, p).Some? then Outcome(RefusalVerdict(NoEndpointAt(k, p)), t)
            else Follow(k, env, p, Held(k.elements, Slot(FirewallIPs, AddressKey(p.daddr, p.protocol, p.dport))), [], t,
                        DEPTH - 2)
  {
    hide EvalChain, EvalRules, Held, NodePortSetInstalled, Follow;
    assert StockIs(k, cfg, FilterOutput) && StockIs(k, cfg, FirewallCheck) && StockIs(k, cfg, ServiceEndpointsCheck);
    var d := DEPTH - 1;
    EnterChain(k, env, p, Stock(FilterOutput), t, DEPTH);
    assert k.chains[Stock(FilterOutput)] == [JumpIfNew(ServiceEndpointsCheck)] + [JumpIfNew(FirewallCheck)];
    assert [JumpIfNew(FirewallCheck)] == [JumpIfNew(FirewallCheck)] + [];
    JumpIfNewEval(k, env, p, ServiceEndpointsCheck, [JumpIfNew(FirewallCheck)], t, d);
    JumpIfNewEval(k, env, p, FirewallCheck, [], t, d);
    AddressCheckEval(k, cfg, env, p, ServiceEndpointsCheck, NoEndpointServices, t, d);
    AddressCheckEval(k, cfg, env, p, FirewallCheck, FirewallIPs, t, d);
    FollowRefusal(k, cfg, env, p, NoEndpointAt(k, p), t, d - 1);
    EvalNone(k, env, p, EvalChain(k, env, p, Stock(FirewallCheck), t, d).trace, d);
  }

  /** Destination translation is the same as for packets that come in. */
  lemma OutputDispatch(k: Kernel, cfg: Config, env: Env, p: Packet, t: Trace)
    requires AllStock(k, cfg)
    ensures EvalChain(k, env, p, Stock(NatOutput), t, DEPTH) ==
              Follow(k, env, p, DispatchAt(k, cfg, env, p), [], t, DEPTH - 2)
  {
    hide EvalChain, EvalRules, Held, NodePortSetInstalled, Follow, AcceptsNodePorts, AllHold;
    assert StockIs(k, cfg, NatOutput) && StockIs(k, cfg, Services);
    EnterChain(k, env, p, Stock(NatOutput), t, DEPTH);
    var r := Rule([], Jump(Stock(Services)));
    assert k.chains[Stock(NatOutput)] == [r] + [];
    HoldOne(k, env, p, t, CtStateNew);
    StepJump(k, env, p, r, [], t, DEPTH - 1);
    ServicesEval(k, cfg, env, p, t, DEPTH - 1);
    EvalNone(k, env, p, EvalChain(k, env, p, Stock(Services), t, DEPTH - 1).trace, DEPTH - 1);
  }

  lemma AfterOutputIs(k: Kernel, cfg: Config, env: Env, p: Packet, t: Trace)
    requires AllStock(k, cfg)
    ensures AfterOutput(k, env, p, t) ==
            if Slot(ClusterIPs, [p.daddr]) in k.elements then Rejected
            else if InRanges(cfg.serviceCIDRs, p.daddr) then Dropped
            else Accepted(p.daddr, p.dport, t.marked, t.learned)
  {
    hide EvalChain, EvalRules, NodePortSetInstalled, InRanges;
    assert StockIs(k, cfg, FilterOutputPostDNAT) && StockIs(k, cfg, ClusterIPsCheck);
    EnterChain(k, env, p, Stock(FilterOutputPostDNAT), t, DEPTH);
    assert k.chains[Stock(FilterOutputPostDNAT)] == [JumpIfNew(ClusterIPsCheck)] + [];
    JumpIfNewEval(k, env, p, ClusterIPsCheck, [], t, DEPTH - 1);
    ClusterIPsCheckEval(k, cfg, env, p, t, DEPTH - 1);
    EvalNone(k, env, p, t, DEPTH - 1);
    assert StockIs(k, cfg, NatPostrouting) && StockIs(k, cfg, Masquerading);
    PostroutingEval(k, cfg, env, p, t);
  }

  /** A policy chain sends the packet on to the endpoint it picks. */
  lemma PolicyEmits(k: Kernel, plans: Plans, used: UsedScores, order: seq<ServicePortName>, cfg: Config, env: Env,
                    pkt: Packet, n: ServicePortName, local: bool, t: Trace, d: nat)
    requires Ready(k, plans, used, order, cfg) && OffServiceNetwork(plans, cfg) && n in plans
    requires UsesPolicy(plans[n], local) && pkt.protocol == plans[n].svc.protocol && d >= 3 && t.learned == {}
    ensures var p := plans[n];
            var o := EvalChain(k, env, pkt, PolicyChain(p, local), t, d);
            && o.verdict.Translates?
            && AfterOutput(k, env, pkt.(daddr := o.verdict.ip, dport := o.verdict.port), o.trace) ==
               Emit(k, p, PolicyList(p, local), used[n], env, pkt,
                    t.marked || (p.svc.internalPolicyLocal == local && MarksInternal(p, cfg, env, pkt)))
  {
    hide EvalChain, AfterOutput, PlanInstalled, StockIs, NodePortSetInstalled, Puts, AllElements, Visits, PlansOK,
      Chosen,
      MarksInternal, AcceptsNodePorts, IsClusterIP, InRanges;
    var p := plans[n];
    assert StockIs(k, cfg, MarkMasq) && PlanInstalled(k, p, used[n], cfg);
    PolicyChainEval(k, cfg, env, pkt, p, used[n], local, t, d);
    var e := Chosen(k, p, PolicyList(p, local), used[n], pkt.saddr, env.random);
    ChosenIsListed(k, p, PolicyList(p, local), used[n], pkt.saddr, env.random);
    var o := EvalChain(k, env, pkt, PolicyChain(p, local), t, d);
    ClusterIPLookup(plans, order, e.ip);
    AfterOutputIs(k, cfg, env, pkt.(daddr := e.ip, dport := e.port), o.trace);
  }

  /** What translation and everything after it make of a packet. */
  ghost function AfterFilter(k: Kernel, env: Env, p: Packet): Fate {
    var d := EvalChain(k, env, p, Stock(NatOutput), Trace(false, {}), DEPTH);
    if d.verdict.Translates? then AfterOutput(k, env, p.(daddr := d.verdict.ip, dport := d.verdict.port), d.trace)
    else if d.verdict == Ran then AfterOutput(k, env, p, d.trace)
    else Broken
  }

  lemma InternalEmits(k: Kernel, plans: Plans, used: UsedScores, order: seq<ServicePortName>, cfg: Config, env: Env,
                      pkt: Packet, n: ServicePortName)
    requires Ready(k, plans, used, order, cfg) && WellAddressed(plans, cfg, env) && OffServiceNetwork(plans, cfg)
    requires ClaimsAddress(plans, n, pkt) && pkt.daddr == plans[n].svc.clusterIP && plans[n].Consistent()
    requires NoEndpointVerdict(plans[n], pkt.daddr) == None && !Forbidden(plans[n], cfg, pkt)
    ensures AfterFilter(k, env, pkt) == OutputFate(k, plans[n], used[n], cfg, env, pkt)
  {
    hide EvalChain, EvalRules, AfterOutput, Puts, AllElements, Visits, PlansOK, PlanInstalled, WellAddressed,
      AcceptsNodePorts, DispatchAt, NoEndpointAt, NoEndpointPortAt, StockIs, NodePortSetInstalled, Emit, UsesPolicy,
      PolicyChain, RuleCompiler.Plan.InternalPolicyChain, RuleCompiler.Plan.Consistent, OffServiceNetwork, Forbidden;
    var p, t := plans[n], Trace(false, {});
    ConsistentPolicies(p);
    AddressDispatch(k, plans, used, order, cfg, env, pkt, n);
    OutputDispatch(k, cfg, env, pkt, t);
    PolicyEmits(k, plans, used, order, cfg, env, pkt, n, p.svc.internalPolicyLocal, t, DEPTH - 2);
  }

  lemma ExternalEmits(k: Kernel, plans: Plans, used: UsedScores, order: seq<ServicePortName>, cfg: Config, env: Env,
                      pkt: Packet, n: ServicePortName)
    requires Ready(k, plans, used, order, cfg) && WellAddressed(plans, cfg, env) && OffServiceNetwork(plans, cfg)
    requires ClaimsAddress(plans, n, pkt) && pkt.daddr != plans[n].svc.clusterIP && plans[n].Consistent()
    requires NoEndpointVerdict(plans[n], pkt.daddr) == None && !Forbidden(plans[n], cfg, pkt)
    ensures plans[n].svc.ExternallyAccessible()
    ensures AfterFilter(k, env, pkt) == OutputFate(k, plans[n], used[n], cfg, env, pkt)
  {
    hide EvalChain, EvalRules, AfterOutput, Puts, AllElements, Visits, PlansOK, PlanInstalled, WellAddressed,
      AcceptsNodePorts, DispatchAt, NoEndpointAt, NoEndpointPortAt, StockIs, NodePortSetInstalled, Emit, UsesPolicy,
      PolicyChain, RuleCompiler.Plan.Consistent, OffServiceNetwork, Forbidden;
    var p, t := plans[n], Trace(false, {});
    ConsistentPolicies(p);
    AddressDispatch(k, plans, used, order, cfg, env, pkt, n);
    OutputDispatch(k, cfg, env, pkt, t);
    assert PlanInstalled(k, p, used[n], cfg) && StockIs(k, cfg, MarkMasq);
    ExternalChainEval(k, cfg, env, pkt, p, used[n], t, DEPTH - 2);
    var turn := ExternalTurn(p, cfg, env, pkt);
    PolicyEmits(k, plans, used, order, cfg, env, pkt, n, turn.local, t.(marked := turn.marked), DEPTH - 3);
  }

  lemma FilterStage(k: Kernel, plans: Plans, used: UsedScores, order: seq<ServicePortName>, cfg: Config, env: Env,
                    pkt: Packet, n: ServicePortName)
    requires Ready(k, plans, used, order, cfg) && WellAddressed(plans, cfg, env) && ClaimsAddress(plans, n, pkt)
    ensures var v := NoEndpointVerdict(plans[n], pkt.daddr);
            TraverseOutput(k, env, pkt) ==
            if v == Some(DropPacket) then Dropped
            else if v.Some? then Rejected
            else if Forbidden(plans[n], cfg, pkt) then Dropped
            else AfterFilter(k, env, pkt)
  {
    hide StockIs, NodePortSetInstalled, Puts, AllElements, Visits, PlansOK, PlanInstalled, WellAddressed,
      AcceptsNodePorts,
      AddressKey, EvalChain, EvalRules, AfterOutput, InRanges, Held, ClaimsNodePort;
    var t := Trace(false, {});
    AddressDispatch(k, plans, used, order, cfg, env, pkt, n);
    assert Refusal(NoEndpointAt(k, pkt));
    FilterOutputEval(k, cfg, env, pkt, t);
    assert DistinctFrontends(plans) by { FrontendsDistinct(plans, cfg, env); }
    AddressLookup(plans, order, FirewallIPs, n, pkt.daddr, pkt.protocol, pkt.dport);
    assert PlanInstalled(k, plans[n], used[n], cfg);
    if pkt.daddr in plans[n].svc.loadBalancerVIPs && plans[n].UsesFirewallChain() {
      FirewallEval(k, cfg, env, pkt, plans[n], used[n], t, DEPTH - 2);
    } else {
      EvalNone(k, env, pkt, t, DEPTH - 2);
    }
  }

  lemma FrontendsDistinct(plans: Plans, cfg: Config, env: Env)
    requires WellAddressed(plans, cfg, env)
    ensures DistinctFrontends(plans)
  {
    hide DistinctFrontends, Plain, AcceptsNodePorts, ClaimsAddress, ClaimsNodePort;
  }

  /** Running the installed rules on a packet the node sends to an address of a service gives what is promised. */
  lemma OutputMeans(k: Kernel, plans: Plans, used: UsedScores, order: seq<ServicePortName>, cfg: Config, env: Env,
                    pkt: Packet, n: ServicePortName)
    requires Installed(k, plans, used, order, cfg) && WellAddressed(plans, cfg, env) && OffServiceNetwork(plans, cfg)
    requires ClaimsAddress(plans, n, pkt)
    ensures PlansOK(plans) && plans.Keys <= used.Keys && plans[n].Consistent()
    ensures pkt.daddr != plans[n].svc.clusterIP ==> plans[n].svc.ExternallyAccessible()
    ensures TraverseOutput(k, env, pkt) == OutputFate(k, plans[n], used[n], cfg, env, pkt)
  {
    hide Installed, Ready, WellAddressed, TraverseOutput, AfterFilter, Emit, Forbidden, PlansOK, OffServiceNetwork,
      RuleCompiler.Plan.Consistent;
    InstalledReady(k, plans, used, order, cfg);
    ReadyPlans(k, plans, used, order, cfg);
    FilterStage(k, plans, used, order, cfg, env, pkt, n);
    if pkt.daddr == plans[n].svc.clusterIP {
      FrontendsDistinct(plans, cfg, env);
      ClusterIPOpen(plans, n, cfg, pkt);
      if NoEndpointVerdict(plans[n], pkt.daddr) == None {
        InternalEmits(k, plans, used, order, cfg, env, pkt, n);
      }
    } else if NoEndpointVerdict(plans[n], pkt.daddr) == None && !Forbidden(plans[n], cfg, pkt) {
      ExternalEmits(k, plans, used, order, cfg, env, pkt, n);
    }
  }

  lemma ClusterIPOpen(plans: Plans, n: ServicePortName, cfg: Config, pkt: Packet)
    requires DistinctFrontends(plans) && n in plans && pkt.daddr == plans[n].svc.clusterIP
    ensures !Forbidden(plans[n], cfg, pkt)
  {
    assert !ExternalAddress(plans[n].svc, plans[n].svc.clusterIP);
  }

  // ---- Short-circuits that are not reached ----

  /**
   A packet with a source address of the node for an external address of a service port that has a
   usable endpoint and does not bar it. If it comes in, the external chain short-circuits it to the
   cluster's endpoints. If the node sends it, the filter chain comes first, so it is delivered exactly
   if the policy is not Local or an endpoint here can serve it, and dropped otherwise.
   */
  lemma ShortCircuitOnOutputIff(states: seq<State>, events: seq<Event>, cfg: Config, node: EndpointSlices.Node, i: nat,
                                env: Env, pkt: Packet, n: ServicePortName)
    requires IsRun(states, events, cfg, node) && i < |states| && !states[i].needFullSync
    requires WellAddressed(StatePlans(states[i], cfg), cfg, env) && OffServiceNetwork(StatePlans(states[i], cfg), cfg)
    requires ClaimsAddress(StatePlans(states[i], cfg), n, pkt) && n in states[i].svcPortMap && pkt.saddr in env.local
    requires pkt.daddr != states[i].svcPortMap[n].clusterIP && !Barred(states[i].svcPortMap[n], cfg, pkt)
    requires exists e :: e in ListOf(states[i].endpointsMap, n) && CanServe(e)
    ensures Traverse(states[i].kernel, env, pkt).Accepted?
    ensures var out := TraverseOutput(states[i].kernel, env, pkt);
            && (out.Accepted? <==>
                  !states[i].svcPortMap[n].externalPolicyLocal
                  || exists e :: e in ListOf(states[i].endpointsMap, n) && e.isLocal && CanServe(e))
            && (!out.Accepted? ==> out == Dropped)
  {
    hide *;
    var s := states[i];
    var plans := StatePlans(s, cfg);
    RunInv(states, events, cfg, node, i);
    InvInstalled(s, cfg, node);
    PlanService(s, cfg, n);
    ComesIn(states, events, cfg, node, i, env, pkt, n);
    OutputMeans(s.kernel, plans, s.used, s.order, cfg, env, pkt, n);
    OutputDropped(s, cfg, env, pkt, n);
  }

  lemma ComesIn(states: seq<State>, events: seq<Event>, cfg: Config, node: EndpointSlices.Node, i: nat, env: Env,
                pkt: Packet, n: ServicePortName)
    requires IsRun(states, events, cfg, node) && i < |states| && !states[i].needFullSync
    requires WellAddressed(StatePlans(states[i], cfg), cfg, env) && ClaimsAddress(StatePlans(states[i], cfg), n, pkt)
    requires n in states[i].svcPortMap && pkt.saddr in env.local
    requires pkt.daddr != states[i].svcPortMap[n].clusterIP && !Barred(states[i].svcPortMap[n], cfg, pkt)
    requires exists e :: e in ListOf(states[i].endpointsMap, n) && CanServe(e)
    ensures Traverse(states[i].kernel, env, pkt).Accepted?
  {
    hide IsRun, WellAddressed, PlansOf, Traverse, Barred, CanServe, ListOf, ClaimsAddress, MayServe;
    EveryRunDeliversToUsable(states, events, cfg, node, i, env, pkt, n);
  }

  lemma OutputDropped(s: State, cfg: Config, env: Env, pkt: Packet, n: ServicePortName)
    requires n in s.svcPortMap && n in StatePlans(s, cfg) && n in s.used && StatePlans(s, cfg)[n].svc == s.svcPortMap[n]
    requires StatePlans(s, cfg)[n].Consistent() && s.svcPortMap[n].ExternallyAccessible()
    requires ClaimsAddress(StatePlans(s, cfg), n, pkt) && pkt.daddr != s.svcPortMap[n].clusterIP
    requires !Barred(s.svcPortMap[n], cfg, pkt) && exists e :: e in ListOf(s.endpointsMap, n) && CanServe(e)
    ensures var out := OutputFate(s.kernel, StatePlans(s, cfg)[n], s.used[n], cfg, env, pkt);
            && (out.Accepted? <==>
                  !s.svcPortMap[n].externalPolicyLocal
                  || exists e :: e in ListOf(s.endpointsMap, n) && e.isLocal && CanServe(e))
            && (!out.Accepted? ==> out == Dropped)
  {
    var p, eps := StatePlans(s, cfg)[n], ListOf(s.endpointsMap, n);
    assert p.local == LocalEndpoints(eps, p.svc) && p.hasEndpoints == HasUsable(eps);
    assert !Forbidden(p, cfg, pkt) by { BarredIs(StatePlans(s, cfg), n, cfg, pkt); }
    hide LocalEndpoints, HasUsable, PlansOf, Forbidden, Chosen, Barred, ClaimsAddress;
    UsableIs(eps);
    if p.svc.externalPolicyLocal {
      LocalNonEmptyIffUsable(eps, p.svc);
    }
  }

  // ---- An example ----

  const WEB := ServicePortName(NamespacedName("ns", "web"), "", TCP)
  const WEB_PORT := ServicePort("10.96.0.1", 80, TCP, 0, [], false, ["203.0.113.1"], [], true, false, "")
  const ELSEWHERE := Endpoint("10.0.0.2", 8080, false, true, true, false, {})
  const WEB_PLAN := Plan(WEB, WEB_PORT, [ELSEWHERE], [], true)
  const BARE := Config(false, false, false, [], [], "172.16.0.1", Gates(false, false))
  const HOST := Env({"172.16.0.1"}, {}, false, 0)
  const CALL := Packet("172.16.0.1", "203.0.113.1", TCP, 80)

  lemma WebAddressed()
    ensures var plans := map[WEB := WEB_PLAN];
            WellAddressed(plans, BARE, HOST) && OffServiceNetwork(plans, BARE) && ClaimsAddress(plans, WEB, CALL)
  {
    var plans := map[WEB := WEB_PLAN];
    assert "203.0.113.1"[0] != "10.96.0.1"[0] && |"10.0.0.2"| != |"10.96.0.1"|;
    assert !ExternalAddress(WEB_PORT, WEB_PORT.clusterIP);
    assert DistinctFrontends(plans);
    assert forall ip :: !AcceptsNodePorts(BARE, HOST, ip);
    assert !IsClusterIP(plans, ELSEWHERE.ip) && !InRanges(BARE.serviceCIDRs, ELSEWHERE.ip);
    hide DistinctFrontends, AcceptsNodePorts, IsClusterIP, InRanges;
    forall n, e, saddr | n in plans && (e in plans[n].cluster || e in plans[n].local)
      ensures Plain(plans, BARE, HOST, Packet(saddr, e.ip, plans[n].svc.protocol, e.port))
    {
      assert e == ELSEWHERE;
    }
    assert "203.0.113.1" in WEB_PORT.externalIPs;
  }

  /**
   A Local-policy service with an external IP and one ready endpoint on another node: what arrives with
   the node's address is delivered there, what the node sends is dropped.
   */
  lemma HostTrafficLost(k: Kernel, used: UsedScores, order: seq<ServicePortName>)
    requires Installed(k, map[WEB := WEB_PLAN], used, order, BARE)
    ensures var come := Traverse(k, HOST, CALL); come.Accepted? && come.daddr == "10.0.0.2" && come.dport == 8080
    ensures TraverseOutput(k, HOST, CALL) == Dropped
  {
    hide Installed, WellAddressed, OffServiceNetwork, Traverse, TraverseOutput, Meaning, PlansOK;
    var plans := map[WEB := WEB_PLAN];
    WebAddressed();
    assert "203.0.113.1"[0] != "10.96.0.1"[0];
    OutputMeans(k, plans, used, order, BARE, HOST, CALL, WEB);
    RulesPreserveMeaning(k, plans, used, order, BARE, HOST, CALL);
    MeaningAllowed(k, plans, used, BARE, HOST, CALL, WEB);
    assert !Barred(WEB_PORT, BARE, CALL) && !MustStayLocal(WEB_PORT, BARE, HOST, CALL);
  }
}
