/** The rule compiler preserves meaning: running the installed rules gives what the services promise. */
module PacketMeaning {
  import opened ProxyTypes
  import opened Nftables
  import opened RuleCompiler
  import opened ElementStorage
  import opened SyncState
  import opened Frontends
  import opened Packets
  import opened PacketChains

  // ---- What the cluster is assumed to look like ----

  /** No frontend claims this destination, and it is not stray traffic to the service network. */
  ghost predicate Plain(plans: Plans, cfg: Config, env: Env, pkt: Packet) {
    && (forall n :: !ClaimsAddress(plans, n, pkt))
    && (forall n :: !ClaimsNodePort(plans, n, cfg, env, pkt))
    && (pkt.daddr !in env.local ==> !IsClusterIP(plans, pkt.daddr) && !InRanges(cfg.serviceCIDRs, pkt.daddr))
  }

  /** Distinct frontends, endpoints that are not frontends, and node-port addresses that are the node's own. */
  ghost predicate WellAddressed(plans: Plans, cfg: Config, env: Env) {
    && DistinctFrontends(plans)
    && (forall n, m, pkt :: ClaimsAddress(plans, n, pkt) ==> !ClaimsNodePort(plans, m, cfg, env, pkt))
    && (forall ip :: AcceptsNodePorts(cfg, env, ip) ==> ip in env.local)
    && (forall n, e, saddr :: n in plans && (e in plans[n].cluster || e in plans[n].local) ==>
          Plain(plans, cfg, env, Packet(saddr, e.ip, plans[n].svc.protocol, e.port)))
  }

  // ---- Stages ----

  ghost predicate Refusal(v: Option<ElementValue>) {
    v == None || v == Some(DropPacket) || v == Some(GotoChain(Stock(RejectChain)))
  }

  function RefusalVerdict(v: Option<ElementValue>): Verdict {
    if v == None then Ran else if v == Some(DropPacket) then Drops else Rejects
  }

  lemma FollowRefusal(k: Kernel, cfg: Config, env: Env, p: Packet, v: Option<ElementValue>, t: Trace, d: nat)
    requires StockIs(k, cfg, RejectChain) && Refusal(v) && d > 0
    ensures Follow(k, env, p, v, [], t, d) == Outcome(RefusalVerdict(v), t)
  {
    hide EvalChain, EvalRules, StockIs;
    EvalNone(k, env, p, t, d);
    RejectEval(k, cfg, env, p, t, d);
  }

  ghost predicate AllStock(k: Kernel, cfg: Config) {
    (forall s: StockChain :: StockIs(k, cfg, s)) && NodePortSetInstalled(k, cfg)
  }

  function NoEndpointAt(k: Kernel, p: Packet): Option<ElementValue> {
    Held(k.elements, Slot(NoEndpointServices, AddressKey(p.daddr, p.protocol, p.dport)))
  }

  ghost function NoEndpointPortAt(k: Kernel, cfg: Config, env: Env, p: Packet): Option<ElementValue> {
    if AcceptsNodePorts(cfg, env, p.daddr)
    then Held(k.elements, Slot(NoEndpointNodePorts, PortKey(p.protocol, p.dport)))
    else None
  }

  /** What the filter hook after routing says. */
  ghost function FilterVerdict(k: Kernel, cfg: Config, env: Env, p: Packet): Verdict {
    if p.daddr in env.local
    then (if NoEndpointPortAt(k, cfg, env, p).Some?
          then RefusalVerdict(NoEndpointPortAt(k, cfg, env, p))
          else RefusalVerdict(NoEndpointAt(k, p)))
    else if NoEndpointAt(k, p).Some? then RefusalVerdict(NoEndpointAt(k, p))
    else if Slot(ClusterIPs, [p.daddr]) in k.elements then Rejects
    else if InRanges(cfg.serviceCIDRs, p.daddr) then Drops
    else Ran
  }

  lemma InputEval(k: Kernel, cfg: Config, env: Env, p: Packet, t: Trace)
    requires AllStock(k, cfg) && Refusal(NoEndpointAt(k, p)) && Refusal(NoEndpointPortAt(k, cfg, env, p))
    requires p.daddr in env.local
    ensures EvalChain(k, env, p, Stock(FilterInput), t, DEPTH) == Outcome(FilterVerdict(k, cfg, env, p), t)
  {
    hide EvalChain, EvalRules, Held, AcceptsNodePorts, NodePortSetInstalled, Follow, InRanges;
    assert StockIs(k, cfg, FilterInput);
    var d := DEPTH - 1;
    EnterChain(k, env, p, Stock(FilterInput), t, DEPTH);
    assert k.chains[Stock(FilterInput)] == [JumpIfNew(NodePortEndpointsCheck)] + [JumpIfNew(ServiceEndpointsCheck)];
    assert [JumpIfNew(ServiceEndpointsCheck)] == [JumpIfNew(ServiceEndpointsCheck)] + [];
    JumpIfNewEval(k, env, p, NodePortEndpointsCheck, [JumpIfNew(ServiceEndpointsCheck)], t, d);
    JumpIfNewEval(k, env, p, ServiceEndpointsCheck, [], t, d);
    EvalNone(k, env, p, t, d);
    NodePortCheckEval(k, cfg, env, p, t, d);
    AddressCheckEval(k, cfg, env, p, ServiceEndpointsCheck, NoEndpointServices, t, d);
    FollowRefusal(k, cfg, env, p, NoEndpointPortAt(k, cfg, env, p), t, d - 1);
    FollowRefusal(k, cfg, env, p, NoEndpointAt(k, p), t, d - 1);
  }

  lemma ForwardEval(k: Kernel, cfg: Config, env: Env, p: Packet, t: Trace)
    requires AllStock(k, cfg) && Refusal(NoEndpointAt(k, p)) && p.daddr !in env.local
    ensures EvalChain(k, env, p, Stock(FilterForward), t, DEPTH) == Outcome(FilterVerdict(k, cfg, env, p), t)
  {
    hide EvalChain, EvalRules, Held, AcceptsNodePorts, NodePortSetInstalled, Follow, InRanges;
    assert StockIs(k, cfg, FilterForward);
    var d := DEPTH - 1;
    EnterChain(k, env, p, Stock(FilterForward), t, DEPTH);
    assert k.chains[Stock(FilterForward)] == [JumpIfNew(ServiceEndpointsCheck)] + [JumpIfNew(ClusterIPsCheck)];
    assert [JumpIfNew(ClusterIPsCheck)] == [JumpIfNew(ClusterIPsCheck)] + [];
    JumpIfNewEval(k, env, p, ServiceEndpointsCheck, [JumpIfNew(ClusterIPsCheck)], t, d);
    JumpIfNewEval(k, env, p, ClusterIPsCheck, [], t, d);
    EvalNone(k, env, p, t, d);
    ClusterIPsCheckEval(k, cfg, env, p, t, d);
    AddressCheckEval(k, cfg, env, p, ServiceEndpointsCheck, NoEndpointServices, t, d);
    FollowRefusal(k, cfg, env, p, NoEndpointAt(k, p), t, d - 1);
  }

  lemma AfterRoutingIs(k: Kernel, cfg: Config, env: Env, p: Packet, t: Trace)
    requires AllStock(k, cfg) && Refusal(NoEndpointAt(k, p)) && Refusal(NoEndpointPortAt(k, cfg, env, p))
    ensures var v := FilterVerdict(k, cfg, env, p);
            AfterRouting(k, env, p, t) ==
            if v == Drops then Dropped else if v == Rejects then Rejected
            else Accepted(p.daddr, p.dport, t.marked && p.daddr !in env.local, t.learned)
  {
    hide EvalChain, AcceptsNodePorts, NodePortSetInstalled, NoEndpointAt, NoEndpointPortAt, InRanges;
    if p.daddr in env.local {
      InputEval(k, cfg, env, p, t);
    } else {
      ForwardEval(k, cfg, env, p, t);
    }
    PostroutingEval(k, cfg, env, p, t);
  }

  /** The first filter hook: the firewall. */
  lemma FirewallStage(k: Kernel, cfg: Config, env: Env, p: Packet, t: Trace)
    requires AllStock(k, cfg)
    ensures EvalChain(k, env, p, Stock(FilterPrerouting), t, DEPTH) ==
            Follow(k, env, p, Held(k.elements, Slot(FirewallIPs, AddressKey(p.daddr, p.protocol, p.dport))), [], t,
                   DEPTH - 2)
  {
    hide EvalChain, EvalRules, Held, NodePortSetInstalled, Follow;
    assert StockIs(k, cfg, FilterPrerouting) && StockIs(k, cfg, FirewallCheck);
    EnterChain(k, env, p, Stock(FilterPrerouting), t, DEPTH);
    assert k.chains[Stock(FilterPrerouting)] == [JumpIfNew(FirewallCheck)] + [];
    JumpIfNewEval(k, env, p, FirewallCheck, [], t, DEPTH - 1);
    AddressCheckEval(k, cfg, env, p, FirewallCheck, FirewallIPs, t, DEPTH - 1);
    EvalNone(k, env, p, EvalChain(k, env, p, Stock(FirewallCheck), t, DEPTH - 1).trace, DEPTH - 1);
  }

  ghost function DispatchAt(k: Kernel, cfg: Config, env: Env, p: Packet): Option<ElementValue> {
    var byAddress := Held(k.elements, Slot(ServiceIPs, AddressKey(p.daddr, p.protocol, p.dport)));
    if byAddress.Some? then byAddress
    else if AcceptsNodePorts(cfg, env, p.daddr) then Held(k.elements,
                                                          Slot(ServiceNodePorts, PortKey(p.protocol, p.dport)))
    else None
  }

  /** Destination translation. */
  lemma DispatchStage(k: Kernel, cfg: Config, env: Env, p: Packet, t: Trace)
    requires AllStock(k, cfg)
    ensures EvalChain(k, env, p, Stock(NatPrerouting), t, DEPTH) ==
              Follow(k, env, p, DispatchAt(k, cfg, env, p), [], t, DEPTH - 2)
  {
    hide EvalChain, EvalRules, Held, NodePortSetInstalled, Follow, AcceptsNodePorts, AllHold;
    assert StockIs(k, cfg, NatPrerouting) && StockIs(k, cfg, Services);
    EnterChain(k, env, p, Stock(NatPrerouting), t, DEPTH);
    var r := Rule([], Jump(Stock(Services)));
    assert k.chains[Stock(NatPrerouting)] == [r] + [];
    HoldOne(k, env, p, t, CtStateNew);
    StepJump(k, env, p, r, [], t, DEPTH - 1);
    ServicesEval(k, cfg, env, p, t, DEPTH - 1);
    EvalNone(k, env, p, EvalChain(k, env, p, Stock(Services), t, DEPTH - 1).trace, DEPTH - 1);
  }

  // ---- An installed state ----

  ghost predicate Ready(k: Kernel, plans: Plans, used: UsedScores, order: seq<ServicePortName>, cfg: Config) {
    && AllStock(k, cfg) && PlansOK(plans) && plans.Keys <= used.Keys && Visits(order, plans)
    && (forall n :: n in plans ==> PlanInstalled(k, plans[n], used[n], cfg))
    && k.elements == Puts(map[], AllElements(plans, order))
  }

  lemma InstalledReady(k: Kernel, plans: Plans, used: UsedScores, order: seq<ServicePortName>, cfg: Config)
    requires Installed(k, plans, used, order, cfg)
    ensures Ready(k, plans, used, order, cfg)
  {
    hide StockRules, NodePortSetInstalled, RuleCompiler.Plan.WantRules, RuleCompiler.Plan.OwnChains, Puts, AllElements,
      Visits, RuleCompiler.Plan.Consistent;
    forall n, c | n in plans && c in plans[n].OwnChains()
      ensures c in k.chains && k.chains[c] == plans[n].WantRules(c, used[n], cfg)
    {
      OwnedAreNamed(plans[n]);
      assert Active(plans, c);
    }
  }

  /** After reaching an endpoint nothing refuses the packet any more. */
  lemma Delivered(k: Kernel, plans: Plans, used: UsedScores, order: seq<ServicePortName>, cfg: Config, env: Env,
                  pkt: Packet, t: Trace)
    requires Ready(k, plans, used, order, cfg) && DistinctFrontends(plans) && Plain(plans, cfg, env, pkt)
    ensures AfterRouting(k, env, pkt, t) ==
              Accepted(pkt.daddr, pkt.dport, t.marked && pkt.daddr !in env.local, t.learned)
  {
    hide AfterRouting, AllStock, Puts, AllElements, PlanInstalled, PlansOK, DistinctFrontends, IsClusterIP, InRanges,
      AcceptsNodePorts, NodePortFrontend, AddressFrontend, AddressKey, PortKey;
    AddressUnclaimed(plans, pkt);
    NoAddressLookup(plans, order, NoEndpointServices, pkt.daddr, pkt.protocol, pkt.dport);
    if AcceptsNodePorts(cfg, env, pkt.daddr) {
      NodePortUnclaimed(plans, cfg, env, pkt);
      NoNodePortLookup(plans, order, NoEndpointNodePorts, pkt.protocol, pkt.dport);
    }
    ClusterIPLookup(plans, order, pkt.daddr);
    AfterRoutingIs(k, cfg, env, pkt, t);
  }

  lemma AddressUnclaimed(plans: Plans, pkt: Packet)
    requires forall n :: !ClaimsAddress(plans, n, pkt)
    ensures forall n :: !AddressFrontend(plans, n, pkt.daddr, pkt.protocol, pkt.dport)
  {
    hide AddressFrontend;
    forall n
      ensures !AddressFrontend(plans, n, pkt.daddr, pkt.protocol, pkt.dport)
    {
      assert !ClaimsAddress(plans, n, pkt);
    }
  }

  lemma NodePortUnclaimed(plans: Plans, cfg: Config, env: Env, pkt: Packet)
    requires AcceptsNodePorts(cfg, env, pkt.daddr) && forall n :: !ClaimsNodePort(plans, n, cfg, env, pkt)
    ensures forall n :: !NodePortFrontend(plans, n, pkt.protocol, pkt.dport)
  {
    hide AcceptsNodePorts, NodePortFrontend;
    forall n
      ensures !NodePortFrontend(plans, n, pkt.protocol, pkt.dport)
    {
      assert !ClaimsNodePort(plans, n, cfg, env, pkt);
    }
  }

  /** Dispatch to a policy chain delivers as promised. */
  lemma PolicyDelivers(k: Kernel, plans: Plans, used: UsedScores, order: seq<ServicePortName>, cfg: Config, env: Env,
                       pkt: Packet,
                       n: ServicePortName, local: bool, t: Trace, d: nat)
    requires Ready(k, plans, used, order, cfg) && WellAddressed(plans, cfg, env) && n in plans
    requires UsesPolicy(plans[n], local) && pkt.protocol == plans[n].svc.protocol && d >= 3 && t.learned == {}
    ensures var p := plans[n];
            var o := EvalChain(k, env, pkt, PolicyChain(p, local), t, d);
            && o.verdict.Translates?
            && AfterRouting(k, env, pkt.(daddr := o.verdict.ip, dport := o.verdict.port), o.trace) ==
               Deliver(k, p, PolicyList(p, local), used[n], env, pkt,
                       t.marked || (p.svc.internalPolicyLocal == local && MarksInternal(p, cfg, env, pkt)))
  {
    hide EvalChain, AfterRouting, Plain, PlanInstalled, StockIs, NodePortSetInstalled, Puts, AllElements, Visits,
      PlansOK, DistinctFrontends, ClaimsAddress, ClaimsNodePort, Chosen, MarksInternal, AcceptsNodePorts;
    var p := plans[n];
    assert StockIs(k, cfg, MarkMasq) && PlanInstalled(k, p, used[n], cfg);
    PolicyChainEval(k, cfg, env, pkt, p, used[n], local, t, d);
    var e := Chosen(k, p, PolicyList(p, local), used[n], pkt.saddr, env.random);
    ChosenIsListed(k, p, PolicyList(p, local), used[n], pkt.saddr, env.random);
    var o := EvalChain(k, env, pkt, PolicyChain(p, local), t, d);
    var pkt' := pkt.(daddr := e.ip, dport := e.port);
    assert pkt' == Packet(pkt.saddr, e.ip, p.svc.protocol, e.port);
    Delivered(k, plans, used, order, cfg, env, pkt', o.trace);
  }

  // ---- Cluster IPs ----

  lemma ConsistentPolicies(p: Plan)
    requires p.Consistent()
    ensures p.HasInternal() ==>
              UsesPolicy(p, p.svc.internalPolicyLocal)
              && p.InternalPolicyChain() == PolicyChain(p, p.svc.internalPolicyLocal)
    ensures p.hasEndpoints && p.svc.ExternallyAccessible() ==> UsesPolicy(p, false)
    ensures p.svc.ExternallyAccessible() && p.svc.externalPolicyLocal && p.local != [] ==> UsesPolicy(p, true)
    ensures p.HasInternal() <==> p.hasEndpoints && !(p.svc.internalPolicyLocal && p.local == [])
  {
  }

  /** The rest of the traversal once the firewall has let the packet through. */
  ghost function AfterFirewall(k: Kernel, env: Env, p: Packet): Fate {
    var d := EvalChain(k, env, p, Stock(NatPrerouting), Trace(false, {}), DEPTH);
    if d.verdict.Translates? then AfterRouting(k, env, p.(daddr := d.verdict.ip, dport := d.verdict.port), d.trace)
    else if d.verdict == Ran then AfterRouting(k, env, p, d.trace)
    else Broken
  }

  /** An address frontend is not a node port, so only its own elements matter. */
  lemma AddressDispatch(k: Kernel, plans: Plans, used: UsedScores, order: seq<ServicePortName>, cfg: Config, env: Env,
                        pkt: Packet, n: ServicePortName)
    requires Ready(k, plans, used, order, cfg) && WellAddressed(plans, cfg, env) && ClaimsAddress(plans, n, pkt)
    ensures DispatchAt(k, cfg, env, pkt) == ServiceVerdict(plans[n], pkt.daddr)
    ensures NoEndpointAt(k, pkt) == NoEndpointVerdict(plans[n], pkt.daddr)
    ensures NoEndpointPortAt(k, cfg, env, pkt) == None
  {
    hide AllStock, Puts, AllElements, Visits, PlansOK, PlanInstalled, DistinctFrontends, Plain, AcceptsNodePorts, Held,
      AddressKey, PortKey, ServiceVerdict, NoEndpointVerdict, NodePortFrontend;
    AddressLookup(plans, order, ServiceIPs, n, pkt.daddr, pkt.protocol, pkt.dport);
    AddressLookup(plans, order, NoEndpointServices, n, pkt.daddr, pkt.protocol, pkt.dport);
    if AcceptsNodePorts(cfg, env, pkt.daddr) {
      NodePortUnclaimed(plans, cfg, env, pkt);
      NoNodePortLookup(plans, order, ServiceNodePorts, pkt.protocol, pkt.dport);
      NoNodePortLookup(plans, order, NoEndpointNodePorts, pkt.protocol, pkt.dport);
    }
  }

  lemma InternalMeans(k: Kernel, plans: Plans, used: UsedScores, order: seq<ServicePortName>, cfg: Config, env: Env,
                      pkt: Packet, n: ServicePortName)
    requires Ready(k, plans, used, order, cfg) && WellAddressed(plans, cfg, env)
    requires ClaimsAddress(plans, n, pkt) && pkt.daddr == plans[n].svc.clusterIP && plans[n].Consistent()
    ensures AfterFirewall(k, env, pkt) == InternalFate(k, plans[n], used[n], cfg, env, pkt)
  {
    hide EvalChain, EvalRules, AfterRouting, Puts, AllElements, Visits, PlansOK, PlanInstalled, WellAddressed,
      AcceptsNodePorts, DispatchAt, NoEndpointAt, NoEndpointPortAt,
      StockIs, NodePortSetInstalled, Deliver, UsesPolicy, PolicyChain, RuleCompiler.Plan.InternalPolicyChain,
      RuleCompiler.Plan.Consistent;
    var p, t := plans[n], Trace(false, {});
    ConsistentPolicies(p);
    AddressDispatch(k, plans, used, order, cfg, env, pkt, n);
    DispatchStage(k, cfg, env, pkt, t);
    if p.HasInternal() {
      PolicyDelivers(k, plans, used, order, cfg, env, pkt, n, p.svc.internalPolicyLocal, t, DEPTH - 2);
    } else {
      EvalNone(k, env, pkt, t, DEPTH - 2);
      AfterRoutingIs(k, cfg, env, pkt, t);
    }
  }

  // ---- External addresses and node ports ----

  lemma ExternalChainEval(k: Kernel, cfg: Config, env: Env, pkt: Packet, p: Plan, sc: Option<ScoreMap>, t: Trace,
                          d: nat)
    requires PlanInstalled(k, p, sc, cfg) && StockIs(k, cfg, MarkMasq) && p.hasEndpoints && p.svc.ExternallyAccessible()
    requires d >= 2
    ensures var turn := ExternalTurn(p, cfg, env, pkt);
            EvalChain(k, env, pkt, p.ExternalChain(), t, d) ==
            if turn.Nowhere?
            then Outcome(Ran, t)
            else EvalChain(k, env, pkt, PolicyChain(p, turn.local), t.(marked := t.marked || turn.marked), d - 1)
  {
    hide EvalChain, EvalRules, StockIs, RuleCompiler.Plan.ExternalRules, ExternalTurn, PolicyChain;
    assert p.ExternalChain() in p.OwnChains();
    EnterChain(k, env, pkt, p.ExternalChain(), t, d);
    assert p.WantRules(p.ExternalChain(), sc, cfg) == p.ExternalRules(cfg);
    ExternalRulesEval(k, cfg, env, pkt, p, t, d - 1);
  }

  /** With dispatch to the external chain and the matching refusal behind it, external traffic fares as promised. */
  lemma ExternalMeans(k: Kernel, plans: Plans, used: UsedScores, order: seq<ServicePortName>, cfg: Config, env: Env,
                      pkt: Packet, n: ServicePortName)
    requires Ready(k, plans, used, order, cfg) && WellAddressed(plans, cfg, env) && n in plans && plans[n].Consistent()
    requires plans[n].svc.ExternallyAccessible() && pkt.protocol == plans[n].svc.protocol
    requires !MarksInternal(plans[n], cfg, env, pkt)
    requires DispatchAt(k, cfg, env, pkt) == NodePortVerdict(plans[n])
    requires Refusal(NoEndpointAt(k, pkt)) && Refusal(NoEndpointPortAt(k, cfg, env, pkt))
    requires var v := NoEndpointNodePortVerdict(plans[n]);
             v.Some? ==> FilterVerdict(k, cfg, env, pkt) == RefusalVerdict(v)
    ensures AfterFirewall(k, env, pkt) == ExternalFate(k, plans[n], used[n], cfg, env, pkt)
  {
    hide EvalChain, EvalRules, AfterRouting, Puts, AllElements, Visits, PlansOK, PlanInstalled, WellAddressed,
      AcceptsNodePorts, DispatchAt, NoEndpointAt, NoEndpointPortAt,
      StockIs, NodePortSetInstalled, Deliver, UsesPolicy, PolicyChain, RuleCompiler.Plan.Consistent, FilterVerdict,
      MarksInternal, Refusal;
    var p, t := plans[n], Trace(false, {});
    ConsistentPolicies(p);
    DispatchStage(k, cfg, env, pkt, t);
    if p.hasEndpoints {
      assert PlanInstalled(k, p, used[n], cfg) && StockIs(k, cfg, MarkMasq);
      ExternalChainEval(k, cfg, env, pkt, p, used[n], t, DEPTH - 2);
      var turn := ExternalTurn(p, cfg, env, pkt);
      if turn.Turn? {
        PolicyDelivers(k, plans, used, order, cfg, env, pkt, n, turn.local, t.(marked := turn.marked), DEPTH - 3);
      } else {
        AfterRoutingIs(k, cfg, env, pkt, t);
      }
    } else {
      EvalNone(k, env, pkt, t, DEPTH - 2);
      AfterRoutingIs(k, cfg, env, pkt, t);
    }
  }

  lemma ExternalAddressMeans(k: Kernel, plans: Plans, used: UsedScores, order: seq<ServicePortName>, cfg: Config,
                             env: Env, pkt: Packet, n: ServicePortName)
    requires Ready(k, plans, used, order, cfg) && WellAddressed(plans, cfg, env)
    requires ClaimsAddress(plans, n, pkt) && pkt.daddr != plans[n].svc.clusterIP && plans[n].Consistent()
    ensures plans[n].svc.ExternallyAccessible()
    ensures AfterFirewall(k, env, pkt) == ExternalFate(k, plans[n], used[n], cfg, env, pkt)
  {
    hide Ready, WellAddressed, AfterFirewall, ExternalFate, DispatchAt, NoEndpointAt, NoEndpointPortAt,
      RuleCompiler.Plan.Consistent, RuleCompiler.Plan.HasExternal;
    AddressDispatch(k, plans, used, order, cfg, env, pkt, n);
    ExternalMeans(k, plans, used, order, cfg, env, pkt, n);
  }

  lemma NodePortMeans(k: Kernel, plans: Plans, used: UsedScores, order: seq<ServicePortName>, cfg: Config, env: Env,
                      pkt: Packet, n: ServicePortName)
    requires Ready(k, plans, used, order, cfg) && WellAddressed(plans, cfg, env)
    requires (forall m :: !ClaimsAddress(plans, m, pkt))
    requires ClaimsNodePort(plans, n, cfg, env, pkt) && plans[n].Consistent()
    ensures plans[n].svc.ExternallyAccessible()
    ensures AfterFirewall(k, env, pkt) == ExternalFate(k, plans[n], used[n], cfg, env, pkt)
  {
    hide AllStock, Puts, AllElements, Visits, PlansOK, PlanInstalled, DistinctFrontends, Plain, AcceptsNodePorts, Held,
      AddressKey, PortKey, AddressFrontend,
      AfterFirewall, ExternalFate, RuleCompiler.Plan.Consistent, RuleCompiler.Plan.HasExternal;
    AddressUnclaimed(plans, pkt);
    NoAddressLookup(plans, order, ServiceIPs, pkt.daddr, pkt.protocol, pkt.dport);
    NoAddressLookup(plans, order, NoEndpointServices, pkt.daddr, pkt.protocol, pkt.dport);
    NodePortLookup(plans, order, ServiceNodePorts, n, pkt.protocol, pkt.dport);
    NodePortLookup(plans, order, NoEndpointNodePorts, n, pkt.protocol, pkt.dport);
    NotMarked(plans, n, cfg, env, pkt);
    ExternalMeans(k, plans, used, order, cfg, env, pkt, n);
  }

  lemma NotMarked(plans: Plans, n: ServicePortName, cfg: Config, env: Env, pkt: Packet)
    requires n in plans && !ClaimsAddress(plans, n, pkt)
    ensures !MarksInternal(plans[n], cfg, env, pkt)
  {
  }

  // ---- Packets nobody claims ----

  lemma UnclaimedMeans(k: Kernel, plans: Plans, used: UsedScores, order: seq<ServicePortName>, cfg: Config, env: Env,
                       pkt: Packet)
    requires Ready(k, plans, used, order, cfg) && WellAddressed(plans, cfg, env)
    requires (forall m :: !ClaimsAddress(plans, m, pkt)) && (forall m :: !ClaimsNodePort(plans, m, cfg, env, pkt))
    ensures AfterFirewall(k, env, pkt) == UnclaimedFate(plans, cfg, env, pkt)
  {
    hide AllStock, Puts, AllElements, Visits, PlansOK, PlanInstalled, DistinctFrontends, Plain, AcceptsNodePorts,
      AddressKey, PortKey, AddressFrontend,
      NodePortFrontend, EvalChain, EvalRules, AfterRouting, InRanges, IsClusterIP;
    var t := Trace(false, {});
    AddressUnclaimed(plans, pkt);
    NoAddressLookup(plans, order, ServiceIPs, pkt.daddr, pkt.protocol, pkt.dport);
    NoAddressLookup(plans, order, NoEndpointServices, pkt.daddr, pkt.protocol, pkt.dport);
    if AcceptsNodePorts(cfg, env, pkt.daddr) {
      NodePortUnclaimed(plans, cfg, env, pkt);
      NoNodePortLookup(plans, order, ServiceNodePorts, pkt.protocol, pkt.dport);
      NoNodePortLookup(plans, order, NoEndpointNodePorts, pkt.protocol, pkt.dport);
    }
    ClusterIPLookup(plans, order, pkt.daddr);
    DispatchStage(k, cfg, env, pkt, t);
    EvalNone(k, env, pkt, t, DEPTH - 2);
    AfterRoutingIs(k, cfg, env, pkt, t);
  }

  // ---- The theorem ----

  /** The firewall stands before everything else. */
  lemma FirewallMeans(k: Kernel, plans: Plans, used: UsedScores, order: seq<ServicePortName>, cfg: Config, env: Env,
                      pkt: Packet, n: ServicePortName)
    requires Ready(k, plans, used, order, cfg) && WellAddressed(plans, cfg, env) && ClaimsAddress(plans, n, pkt)
    ensures Traverse(k, env, pkt) == if Forbidden(plans[n], cfg, pkt) then Dropped else AfterFirewall(k, env, pkt)
  {
    hide StockIs, NodePortSetInstalled, Puts, AllElements, Visits, PlansOK, PlanInstalled, DistinctFrontends, Plain,
      AcceptsNodePorts, AddressKey, EvalChain, EvalRules, AfterRouting, InRanges, Held, ClaimsNodePort;
    var t := Trace(false, {});
    AddressLookup(plans, order, FirewallIPs, n, pkt.daddr, pkt.protocol, pkt.dport);
    FirewallStage(k, cfg, env, pkt, t);
    assert PlanInstalled(k, plans[n], used[n], cfg);
    if pkt.daddr in plans[n].svc.loadBalancerVIPs && plans[n].UsesFirewallChain() {
      FirewallEval(k, cfg, env, pkt, plans[n], used[n], t, DEPTH - 2);
    } else {
      EvalNone(k, env, pkt, t, DEPTH - 2);
    }
  }

  lemma NoFirewallMeans(k: Kernel, plans: Plans, used: UsedScores, order: seq<ServicePortName>, cfg: Config, env: Env,
                        pkt: Packet)
    requires Ready(k, plans, used, order, cfg) && WellAddressed(plans, cfg, env)
    requires forall n :: !ClaimsAddress(plans, n, pkt)
    ensures Traverse(k, env, pkt) == AfterFirewall(k, env, pkt)
  {
    hide StockIs, NodePortSetInstalled, Puts, AllElements, Visits, PlansOK, PlanInstalled, DistinctFrontends, Plain,
      AcceptsNodePorts, AddressKey, EvalChain, EvalRules, AfterRouting, Held, ClaimsNodePort, AddressFrontend;
    var t := Trace(false, {});
    AddressUnclaimed(plans, pkt);
    NoAddressLookup(plans, order, FirewallIPs, pkt.daddr, pkt.protocol, pkt.dport);
    FirewallStage(k, cfg, env, pkt, t);
    EvalNone(k, env, pkt, t, DEPTH - 2);
  }

  /**
   For every packet that opens a connection and every random number, running the installed rules
   gives what the services promise: delivery to an endpoint the traffic policy allows, a reject when
   the service has none, a drop when the policy is Local and none is local or no source range admits
   the sender. Nothing is ever stuck.
   */
  lemma RulesPreserveMeaning(k: Kernel, plans: Plans, used: UsedScores, order: seq<ServicePortName>, cfg: Config,
                             env: Env, pkt: Packet)
    requires Installed(k, plans, used, order, cfg) && WellAddressed(plans, cfg, env)
    ensures PlansOK(plans) && plans.Keys <= used.Keys
    ensures Traverse(k, env, pkt) == Meaning(k, plans, used, cfg, env, pkt)
  {
    hide Installed, Ready, WellAddressed, Traverse, AfterFirewall, InternalFate, ExternalFate, UnclaimedFate, Forbidden,
      RuleCompiler.Plan.Consistent, PlansOK, AcceptsNodePorts;
    InstalledReady(k, plans, used, order, cfg);
    ReadyPlans(k, plans, used, order, cfg);
    if exists n :: ClaimsAddress(plans, n, pkt) {
      forall n | ClaimsAddress(plans, n, pkt)
        ensures Traverse(k, env, pkt) == if Forbidden(plans[n], cfg, pkt) then Dropped
                                         else if pkt.daddr == plans[n].svc.clusterIP then InternalFate(k, plans[n],
                                                  used[n], cfg, env, pkt)
                                         else assert plans[n].svc.ExternallyAccessible(); ExternalFate(k, plans[n],
                                                  used[n], cfg, env, pkt)
      {
        FirewallMeans(k, plans, used, order, cfg, env, pkt, n);
        if pkt.daddr == plans[n].svc.clusterIP {
          InternalMeans(k, plans, used, order, cfg, env, pkt, n);
        } else {
          ExternalAddressMeans(k, plans, used, order, cfg, env, pkt, n);
        }
      }
    } else {
      NoFirewallMeans(k, plans, used, order, cfg, env, pkt);
      if exists n :: ClaimsNodePort(plans, n, cfg, env, pkt) {
        forall n | ClaimsNodePort(plans, n, cfg, env, pkt)
          ensures plans[n].svc.ExternallyAccessible()
          ensures Traverse(k, env, pkt) == ExternalFate(k, plans[n], used[n], cfg, env, pkt)
        {
          NodePortMeans(k, plans, used, order, cfg, env, pkt, n);
        }
      } else {
        UnclaimedMeans(k, plans, used, order, cfg, env, pkt);
      }
    }
  }

  lemma ReadyPlans(k: Kernel, plans: Plans, used: UsedScores, order: seq<ServicePortName>, cfg: Config)
    requires Ready(k, plans, used, order, cfg)
    ensures PlansOK(plans) && plans.Keys <= used.Keys && forall n :: n in plans ==> plans[n].Consistent()
  {
  }
}
