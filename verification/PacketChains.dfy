/** What running each kind of installed chain does to a packet. */
module PacketChains {
  import opened ProxyTypes
  import opened Nftables
  import opened RuleCompiler
  import opened SyncState
  import opened Weights
  import opened Frontends
  import opened Packets

  // ---- Single steps ----

  lemma StepSkip(k: Kernel, env: Env, p: Packet, r: Rule, rest: seq<Rule>, t: Trace, d: nat)
    requires !AllHold(k, env, p, t, r.matches)
    ensures EvalRules(k, env, p, [r] + rest, t, d) == EvalRules(k, env, p, rest, t, d)
  {
    hide AllHold;
    assert ([r] + rest)[1..] == rest;
  }

  lemma StepGoto(k: Kernel, env: Env, p: Packet, r: Rule, rest: seq<Rule>, t: Trace, d: nat)
    requires AllHold(k, env, p, t, r.matches) && r.action.Goto?
    ensures EvalRules(k, env, p, [r] + rest, t, d) == EvalChain(k, env, p, r.action.target, t, d)
  {
    hide AllHold;
  }

  lemma StepJump(k: Kernel, env: Env, p: Packet, r: Rule, rest: seq<Rule>, t: Trace, d: nat)
    requires AllHold(k, env, p, t, r.matches) && r.action.Jump?
    ensures var o := EvalChain(k, env, p, r.action.target, t, d);
            EvalRules(k, env, p, [r] + rest, t, d) ==
              if o.verdict == Ran then EvalRules(k, env, p, rest, o.trace, d) else o
  {
    hide AllHold, EvalChain;
    assert ([r] + rest)[1..] == rest;
  }

  lemma StepSimple(k: Kernel, env: Env, p: Packet, r: Rule, rest: seq<Rule>, t: Trace, d: nat)
    requires AllHold(k, env, p, t, r.matches)
    ensures r.action == Drop ==> EvalRules(k, env, p, [r] + rest, t, d) == Outcome(Drops, t)
    ensures r.action == Reject ==> EvalRules(k, env, p, [r] + rest, t, d) == Outcome(Rejects, t)
    ensures r.action == Return ==> EvalRules(k, env, p, [r] + rest, t, d) == Outcome(Ran, t)
    ensures r.action == Masquerade ==> EvalRules(k, env, p, [r] + rest, t, d) == Outcome(Masquerades, t)
    ensures r.action.Dnat? ==>
              EvalRules(k, env, p, [r] + rest, t, d) == Outcome(Translates(r.action.ip, r.action.port), t)
    ensures r.action == SetMark ==>
              EvalRules(k, env, p, [r] + rest, t, d) == EvalRules(k, env, p, rest, t.(marked := true), d)
    ensures r.action == ClearMark ==>
              EvalRules(k, env, p, [r] + rest, t, d) == EvalRules(k, env, p, rest, t.(marked := !t.marked), d)
    ensures r.action.UpdateAffinity? ==>
              EvalRules(k, env, p, [r] + rest, t, d) ==
                EvalRules(k, env, p, rest, t.(learned := t.learned + {r.action.affinity}), d)
  {
    hide AllHold, EvalChain;
    assert ([r] + rest)[1..] == rest;
  }

  /** A verdict map lookup. */
  function Follow(k: Kernel, env: Env, p: Packet, v: Option<ElementValue>, rest: seq<Rule>, t: Trace, d: nat): Outcome {
    if v.Some? then EvalElement(k, env, p, v.value, t, d) else EvalRules(k, env, p, rest, t, d)
  }

  lemma StepVmap(k: Kernel, env: Env, p: Packet, r: Rule, rest: seq<Rule>, t: Trace, d: nat)
    requires AllHold(k, env, p, t, r.matches)
    ensures r.action.AddrVmap? ==>
              EvalRules(k, env, p, [r] + rest, t, d) ==
              Follow(k, env, p, Held(k.elements, Slot(r.action.container, AddressKey(p.daddr, p.protocol, p.dport))),
                     rest, t, d)
    ensures r.action.PortVmap? ==>
              EvalRules(k, env, p, [r] + rest, t, d) ==
                Follow(k, env, p, Held(k.elements, Slot(r.action.container, PortKey(p.protocol, p.dport))), rest, t, d)
  {
    hide AllHold, EvalElement, Held, AddressKey, PortKey;
    assert ([r] + rest)[1..] == rest;
  }

  lemma EvalNone(k: Kernel, env: Env, p: Packet, t: Trace, d: nat)
    ensures EvalRules(k, env, p, [], t, d) == Outcome(Ran, t)
  {
  }

  lemma EnterChain(k: Kernel, env: Env, p: Packet, c: Chain, t: Trace, d: nat)
    requires d > 0 && c in k.chains
    ensures EvalChain(k, env, p, c, t, d) == EvalRules(k, env, p, k.chains[c], t, d - 1)
  {
    hide EvalRules;
  }

  lemma HoldOne(k: Kernel, env: Env, p: Packet, t: Trace, m: Match)
    ensures AllHold(k, env, p, t, []) && (AllHold(k, env, p, t, [m]) <==> Holds(k, env, p, t, m))
  {
    hide Holds;
    assert [m][1..] == [];
  }

  lemma HoldTwo(k: Kernel, env: Env, p: Packet, t: Trace, m: Match, n: Match)
    ensures AllHold(k, env, p, t, [m, n]) <==> Holds(k, env, p, t, m) && Holds(k, env, p, t, n)
  {
    hide Holds;
    HoldOne(k, env, p, t, n);
    assert [m, n][1..] == [n];
  }

  lemma HoldThree(k: Kernel, env: Env, p: Packet, t: Trace, m: Match, n: Match, o: Match)
    ensures AllHold(k, env, p, t, [m, n, o]) <==>
              Holds(k, env, p, t, m) && Holds(k, env, p, t, n) && Holds(k, env, p, t, o)
  {
    hide Holds;
    HoldTwo(k, env, p, t, n, o);
    assert [m, n, o][1..] == [n, o];
  }

  // ---- Stock chains ----

  ghost predicate StockIs(k: Kernel, cfg: Config, s: StockChain) {
    Stock(s) in k.chains && k.chains[Stock(s)] == StockRules(cfg, s)
  }

  lemma MarkMasqEval(k: Kernel, cfg: Config, env: Env, p: Packet, t: Trace, d: nat)
    requires StockIs(k, cfg, MarkMasq) && d > 0
    ensures EvalChain(k, env, p, Stock(MarkMasq), t, d) == Outcome(Ran, t.(marked := true))
  {
    EnterChain(k, env, p, Stock(MarkMasq), t, d);
    StepSimple(k, env, p, Rule([], SetMark), [], t, d - 1);
    EvalNone(k, env, p, t.(marked := true), d - 1);
    hide EvalRules, EvalChain;
    assert [Rule([], SetMark)] + [] == k.chains[Stock(MarkMasq)];
  }

  lemma RejectEval(k: Kernel, cfg: Config, env: Env, p: Packet, t: Trace, d: nat)
    requires StockIs(k, cfg, RejectChain) && d > 0
    ensures EvalChain(k, env, p, Stock(RejectChain), t, d) == Outcome(Rejects, t)
  {
    EnterChain(k, env, p, Stock(RejectChain), t, d);
    StepSimple(k, env, p, Rule([], Reject), [], t, d - 1);
    hide EvalRules, EvalChain;
    assert [Rule([], Reject)] + [] == k.chains[Stock(RejectChain)];
  }

  /** Source translation happens exactly to marked packets. */
  lemma MasqueradingEval(k: Kernel, cfg: Config, env: Env, p: Packet, t: Trace, d: nat)
    requires StockIs(k, cfg, Masquerading) && d > 0
    ensures EvalChain(k, env, p, Stock(Masquerading), t, d) ==
            if t.marked then Outcome(Masquerades, t.(marked := false)) else Outcome(Ran, t)
  {
    hide EvalRules, EvalChain;
    EnterChain(k, env, p, Stock(Masquerading), t, d);
    var a, b, c := Rule([MarkIsClear], Return), Rule([], ClearMark), Rule([], Masquerade);
    assert k.chains[Stock(Masquerading)] == [a] + [b, c] && [b, c] == [b] + [c] && [c] == [c] + [];
    HoldOne(k, env, p, t, MarkIsClear);
    if t.marked {
      StepSkip(k, env, p, a, [b, c], t, d - 1);
      StepSimple(k, env, p, b, [c], t, d - 1);
      StepSimple(k, env, p, c, [], t.(marked := false), d - 1);
    } else {
      StepSimple(k, env, p, a, [b, c], t, d - 1);
    }
  }

  lemma PostroutingEval(k: Kernel, cfg: Config, env: Env, p: Packet, t: Trace)
    requires StockIs(k, cfg, NatPostrouting) && StockIs(k, cfg, Masquerading)
    ensures EvalChain(k, env, p, Stock(NatPostrouting), t, DEPTH) ==
            if t.marked then Outcome(Masquerades, t.(marked := false)) else Outcome(Ran, t)
  {
    hide EvalRules, EvalChain;
    EnterChain(k, env, p, Stock(NatPostrouting), t, DEPTH);
    var r := Rule([], Jump(Stock(Masquerading)));
    assert k.chains[Stock(NatPostrouting)] == [r] + [];
    HoldOne(k, env, p, t, MarkIsClear);
    StepJump(k, env, p, r, [], t, DEPTH - 1);
    MasqueradingEval(k, cfg, env, p, t, DEPTH - 1);
    EvalNone(k, env, p, t, DEPTH - 1);
  }

  /** A chain that only looks an address up. */
  lemma AddressCheckEval(k: Kernel, cfg: Config, env: Env, p: Packet, s: StockChain, c: Container, t: Trace, d: nat)
    requires StockIs(k, cfg, s) && d > 0
    requires (s == FirewallCheck && c == FirewallIPs) || (s == ServiceEndpointsCheck && c == NoEndpointServices)
    ensures EvalChain(k, env, p, Stock(s), t, d) ==
            Follow(k, env, p, Held(k.elements, Slot(c, AddressKey(p.daddr, p.protocol, p.dport))), [], t, d - 1)
  {
    hide EvalRules, EvalChain, Follow;
    EnterChain(k, env, p, Stock(s), t, d);
    assert k.chains[Stock(s)] == [Rule([], AddrVmap(c))] + [];
    HoldOne(k, env, p, t, CtStateNew);
    StepVmap(k, env, p, Rule([], AddrVmap(c)), [], t, d - 1);
  }

  /** The node-port match, in both places where it is used. */
  lemma NodePortMatchesHold(k: Kernel, cfg: Config, env: Env, p: Packet, t: Trace, dispatch: bool)
    requires NodePortSetInstalled(k, cfg) && (dispatch || p.daddr in env.local)
    ensures AllHold(k, env, p, t, NodePortMatches(cfg, dispatch)) <==> AcceptsNodePorts(cfg, env, p.daddr)
  {
    HoldOne(k, env, p, t, DaddrNotLocalhost);
    HoldOne(k, env, p, t, DaddrInNodePortIPs);
    HoldTwo(k, env, p, t, DaddrTypeLocal, DaddrNotLocalhost);
    hide AllHold;
    assert [DaddrTypeLocal] + [DaddrNotLocalhost] == [DaddrTypeLocal, DaddrNotLocalhost];
    assert [] + [DaddrNotLocalhost] == [DaddrNotLocalhost];
  }

  lemma NodePortCheckEval(k: Kernel, cfg: Config, env: Env, p: Packet, t: Trace, d: nat)
    requires StockIs(k, cfg, NodePortEndpointsCheck) && NodePortSetInstalled(k, cfg) && p.daddr in env.local && d > 0
    ensures EvalChain(k, env, p, Stock(NodePortEndpointsCheck), t, d) ==
            Follow(k, env, p, if AcceptsNodePorts(cfg, env, p.daddr) then Held(k.elements,
                Slot(NoEndpointNodePorts, PortKey(p.protocol, p.dport))) else None, [], t, d - 1)
  {
    hide EvalRules, EvalChain, AcceptsNodePorts, NodePortSetInstalled, AllHold, NodePortMatches;
    EnterChain(k, env, p, Stock(NodePortEndpointsCheck), t, d);
    var r := Rule(NodePortMatches(cfg, false), PortVmap(NoEndpointNodePorts));
    assert k.chains[Stock(NodePortEndpointsCheck)] == [r] + [];
    NodePortMatchesHold(k, cfg, env, p, t, false);
    if AcceptsNodePorts(cfg, env, p.daddr) {
      StepVmap(k, env, p, r, [], t, d - 1);
    } else {
      StepSkip(k, env, p, r, [], t, d - 1);
    }
  }

  /** Service dispatch: by address first, then by node port. */
  lemma ServicesEval(k: Kernel, cfg: Config, env: Env, p: Packet, t: Trace, d: nat)
    requires StockIs(k, cfg, Services) && NodePortSetInstalled(k, cfg) && d > 0
    ensures var byAddress := Held(k.elements, Slot(ServiceIPs, AddressKey(p.daddr, p.protocol, p.dport)));
            var byPort := if AcceptsNodePorts(cfg, env, p.daddr)
                          then Held(k.elements, Slot(ServiceNodePorts, PortKey(p.protocol, p.dport)))
                          else None;
            EvalChain(k, env, p, Stock(Services), t, d) ==
              Follow(k, env, p, if byAddress.Some? then byAddress else byPort, [], t, d - 1)
  {
    hide EvalRules, EvalChain, AcceptsNodePorts, NodePortSetInstalled, AllHold, NodePortMatches, Held, AddressKey,
      PortKey, EvalElement;
    EnterChain(k, env, p, Stock(Services), t, d);
    var a, b := Rule([], AddrVmap(ServiceIPs)), Rule(NodePortMatches(cfg, true), PortVmap(ServiceNodePorts));
    assert k.chains[Stock(Services)] == [a] + [b] && [b] == [b] + [];
    HoldOne(k, env, p, t, CtStateNew);
    StepVmap(k, env, p, a, [b], t, d - 1);
    NodePortMatchesHold(k, cfg, env, p, t, true);
    if AcceptsNodePorts(cfg, env, p.daddr) {
      StepVmap(k, env, p, b, [], t, d - 1);
    } else {
      StepSkip(k, env, p, b, [], t, d - 1);
    }
  }

  /** One jump for new connections, the rest of the chain to follow. */
  lemma JumpIfNewEval(k: Kernel, env: Env, p: Packet, s: StockChain, rest: seq<Rule>, t: Trace, d: nat)
    ensures var o := EvalChain(k, env, p, Stock(s), t, d);
            EvalRules(k, env, p, [JumpIfNew(s)] + rest, t, d) ==
              if o.verdict == Ran then EvalRules(k, env, p, rest, o.trace, d) else o
  {
    hide EvalRules, EvalChain;
    HoldOne(k, env, p, t, CtStateNew);
    StepJump(k, env, p, JumpIfNew(s), rest, t, d);
  }

  /** Stray traffic to the service network. */
  lemma ClusterIPsCheckEval(k: Kernel, cfg: Config, env: Env, p: Packet, t: Trace, d: nat)
    requires StockIs(k, cfg, ClusterIPsCheck) && d > 0
    ensures EvalChain(k, env, p, Stock(ClusterIPsCheck), t, d) ==
            Outcome(if Slot(ClusterIPs, [p.daddr]) in k.elements then Rejects else if InRanges(cfg.serviceCIDRs,
                p.daddr) then Drops else Ran, t)
  {
    hide EvalRules, EvalChain, AllHold;
    EnterChain(k, env, p, Stock(ClusterIPsCheck), t, d);
    var a, b := Rule([DaddrInClusterIPs], Reject), Rule([DaddrInRanges(cfg.serviceCIDRs)], Drop);
    var rest := if cfg.serviceCIDRs != [] then [b] else [];
    assert k.chains[Stock(ClusterIPsCheck)] == [a] + rest;
    HoldOne(k, env, p, t, DaddrInClusterIPs);
    HoldOne(k, env, p, t, DaddrInRanges(cfg.serviceCIDRs));
    EvalNone(k, env, p, t, d - 1);
    if Slot(ClusterIPs, [p.daddr]) in k.elements {
      StepSimple(k, env, p, a, rest, t, d - 1);
    } else {
      StepSkip(k, env, p, a, rest, t, d - 1);
      assert [b] == [b] + [];
      if InRanges(cfg.serviceCIDRs, p.daddr) {
        StepSimple(k, env, p, b, [], t, d - 1);
      } else {
        StepSkip(k, env, p, b, [], t, d - 1);
      }
    }
  }

  // ---- A service port's chains ----

  /** The trace after reaching an endpoint's chain. */
  function Reached(p: Plan, e: Endpoint, pkt: Packet, t: Trace): Trace {
    Trace(t.marked || pkt.saddr == e.ip, t.learned + (if p.svc.clientIPAffinity then {EpSet(p.spn, e)} else {}))
  }

  lemma EndpointEval(k: Kernel, cfg: Config, env: Env, pkt: Packet, p: Plan, e: Endpoint, t: Trace, d: nat)
    requires StockIs(k, cfg, MarkMasq) && pkt.protocol == p.svc.protocol && d >= 2
    requires EpChain(p.spn, e) in k.chains && k.chains[EpChain(p.spn, e)] == EndpointRules(p.spn, p.svc, e.ip, e.port)
    ensures EvalChain(k, env, pkt, EpChain(p.spn, e), t, d) == Outcome(Translates(e.ip, e.port), Reached(p, e, pkt, t))
  {
    hide EvalRules, EvalChain, AllHold, StockIs;
    EnterChain(k, env, pkt, EpChain(p.spn, e), t, d);
    var a := Rule([SaddrIs(e.ip)], Jump(Stock(MarkMasq)));
    var tail := EndpointTail(p, e);
    assert k.chains[EpChain(p.spn, e)] == [a] + tail;
    HoldOne(k, env, pkt, t, SaddrIs(e.ip));
    if pkt.saddr == e.ip {
      StepJump(k, env, pkt, a, tail, t, d - 1);
      MarkMasqEval(k, cfg, env, pkt, t, d - 1);
    } else {
      StepSkip(k, env, pkt, a, tail, t, d - 1);
    }
    EndpointTailEval(k, env, pkt, p, e, t.(marked := t.marked || pkt.saddr == e.ip), d - 1);
  }

  /** What follows the hairpin rule of an endpoint's chain. */
  function EndpointTail(p: Plan, e: Endpoint): seq<Rule> {
    (if p.svc.clientIPAffinity then [Rule([], UpdateAffinity(EpSet(p.spn, e)))] else [])
    + [Rule([L4ProtocolIs(p.svc.protocol)], Dnat(e.ip, e.port))]
  }

  lemma EndpointTailEval(k: Kernel, env: Env, pkt: Packet, p: Plan, e: Endpoint, t: Trace, d: nat)
    requires pkt.protocol == p.svc.protocol
    ensures EvalRules(k, env, pkt, EndpointTail(p, e), t, d) ==
            Outcome(Translates(e.ip, e.port),
                    t.(learned := t.learned + (if p.svc.clientIPAffinity then {EpSet(p.spn, e)} else {})))
  {
    hide EvalRules, EvalChain, AllHold;
    var b, c := Rule([], UpdateAffinity(EpSet(p.spn, e))), Rule([L4ProtocolIs(p.svc.protocol)], Dnat(e.ip, e.port));
    var t' := t.(learned := t.learned + (if p.svc.clientIPAffinity then {EpSet(p.spn, e)} else {}));
    HoldOne(k, env, pkt, t, CtStateNew);
    HoldOne(k, env, pkt, t', L4ProtocolIs(p.svc.protocol));
    assert [c] == [c] + [];
    if p.svc.clientIPAffinity {
      assert EndpointTail(p, e) == [b] + [c];
      StepSimple(k, env, pkt, b, [c], t, d);
    } else {
      assert EndpointTail(p, e) == [c] && t' == t;
    }
    StepSimple(k, env, pkt, c, [], t', d);
  }

  /** The dispatch rule leads to the endpoint drawn by lot. */
  lemma DispatchEval(k: Kernel, env: Env, pkt: Packet, spn: ServicePortName, eps: seq<Endpoint>, sc: Option<ScoreMap>,
                     t: Trace, d: nat)
    requires eps != []
    ensures EvalRules(k, env, pkt, [DispatchRule(spn, eps, sc)], t, d) ==
              EvalChain(k, env, pkt, EpChain(spn, ByLot(eps, sc, env.random)), t, d)
  {
    hide EvalChain, AllHold, TotalScore, WaoArms;
    HoldOne(k, env, pkt, t, CtStateNew);
    if UsesWao(eps, sc) {
      WaoPositive(eps, sc.value);
      WaoDispatch(spn, eps, sc.value, env.random % TotalScore(eps, sc.value));
    } else {
      EvenDispatch(spn, eps, env.random % |eps|);
    }
  }

  /** The affinity rules from the `i`-th on. */
  lemma {:induction false} AffinityEval(k: Kernel, env: Env, pkt: Packet, spn: ServicePortName, eps: seq<Endpoint>,
                                        last: Rule, i: nat, t: Trace, d: nat)
    requires i <= |eps|
    ensures var stuck := Sticky(k, spn, eps[i..], pkt.saddr);
            EvalRules(k, env, pkt, AffinityRules(spn, eps)[i..] + [last], t, d) ==
            if stuck.Some?
            then EvalChain(k, env, pkt, EpChain(spn, stuck.value), t, d)
            else EvalRules(k, env, pkt, [last], t, d)
    decreases |eps| - i
  {
    hide EvalRules, EvalChain, AllHold, InSet, AffinityRules;
    var rules := AffinityRules(spn, eps);
    if i == |eps| {
      assert rules[i..] + [last] == [last];
    } else {
      var r := Rule([SaddrInSet(EpSet(spn, eps[i]))], Goto(EpChain(spn, eps[i])));
      assert rules[i..] + [last] == [r] + (rules[i + 1..] + [last]);
      assert eps[i..][1..] == eps[i + 1..];
      HoldOne(k, env, pkt, t, SaddrInSet(EpSet(spn, eps[i])));
      if InSet(k, EpSet(spn, eps[i]), pkt.saddr) {
        StepGoto(k, env, pkt, r, rules[i + 1..] + [last], t, d);
      } else {
        StepSkip(k, env, pkt, r, rules[i + 1..] + [last], t, d);
        AffinityEval(k, env, pkt, spn, eps, last, i + 1, t, d);
      }
    }
  }

  /** Affinity first, then the lot. */
  lemma PolicyEval(k: Kernel, env: Env, pkt: Packet, p: Plan, eps: seq<Endpoint>, sc: Option<ScoreMap>, t: Trace,
                   d: nat)
    requires eps != []
    ensures EvalRules(k, env, pkt, PolicyRules(p.spn, p.svc, eps, sc), t, d) ==
            EvalChain(k, env, pkt, EpChain(p.spn, Chosen(k, p, eps, sc, pkt.saddr, env.random)), t, d)
  {
    hide EvalRules, EvalChain, ByLot, DispatchRule, Sticky, AffinityRules;
    var last := DispatchRule(p.spn, eps, sc);
    DispatchEval(k, env, pkt, p.spn, eps, sc, t, d);
    if p.svc.clientIPAffinity {
      AffinityEval(k, env, pkt, p.spn, eps, last, 0, t, d);
      assert AffinityRules(p.spn, eps)[0..] == AffinityRules(p.spn, eps) && eps[0..] == eps;
    } else {
      assert [] + [last] == [last];
    }
  }

  /** Cluster-IP traffic is marked, all of it or that from outside the node's pods. */
  ghost predicate MarksInternal(p: Plan, cfg: Config, env: Env, pkt: Packet) {
    && p.HasInternal() && pkt.daddr == p.svc.clusterIP && pkt.protocol == p.svc.protocol && pkt.dport == p.svc.port
    && (cfg.masqueradeAll || (cfg.localDetector && !env.fromPod))
  }

  lemma InternalRulesEval(k: Kernel, cfg: Config, env: Env, pkt: Packet, p: Plan, rest: seq<Rule>, t: Trace, d: nat)
    requires StockIs(k, cfg, MarkMasq) && d > 0
    ensures EvalRules(k, env, pkt, p.InternalRules(cfg) + rest, t, d) ==
            EvalRules(k, env, pkt, rest, t.(marked := t.marked || MarksInternal(p, cfg, env, pkt)), d)
  {
    hide EvalRules, EvalChain, AllHold, StockIs, RuleCompiler.Plan.HasInternal;
    var front := [DaddrIs(p.svc.clusterIP), DportIs(p.svc.protocol, p.svc.port)];
    HoldTwo(k, env, pkt, t, front[0], front[1]);
    HoldThree(k, env, pkt, t, front[0], front[1], NotFromLocalPod);
    assert front + [NotFromLocalPod] == [front[0], front[1], NotFromLocalPod];
    MarkMasqEval(k, cfg, env, pkt, t, d);
    var rules := p.InternalRules(cfg);
    if rules == [] {
      assert rules + rest == rest;
      assert t.(marked := t.marked) == t;
    } else {
      var r := rules[0];
      assert rules + rest == [r] + rest;
      if AllHold(k, env, pkt, t, r.matches) {
        StepJump(k, env, pkt, r, rest, t, d);
      } else {
        StepSkip(k, env, pkt, r, rest, t, d);
        assert t.(marked := t.marked) == t;
      }
    }
  }

  function PolicyList(p: Plan, local: bool): seq<Endpoint> { if local then p.local else p.cluster }

  function PolicyChain(p: Plan, local: bool): Chain { if local then p.LocalChain() else p.ClusterChain() }

  predicate UsesPolicy(p: Plan, local: bool) {
    PolicyList(p, local) != [] && (if local then p.svc.UsesLocalEndpoints() else p.svc.UsesClusterEndpoints())
  }

  /** The service port's chains hold what they should. */
  ghost predicate PlanInstalled(k: Kernel, p: Plan, sc: Option<ScoreMap>, cfg: Config) {
    forall c :: c in p.OwnChains() ==> c in k.chains && k.chains[c] == p.WantRules(c, sc, cfg)
  }

  lemma ChosenIsListed(k: Kernel, p: Plan, eps: seq<Endpoint>, sc: Option<ScoreMap>, saddr: string, random: nat)
    requires eps != []
    ensures Chosen(k, p, eps, sc, saddr, random) in eps
  {
    hide ByLot;
    StickyIsListed(k, p.spn, eps, saddr);
  }

  lemma {:induction false} StickyIsListed(k: Kernel, spn: ServicePortName, eps: seq<Endpoint>, saddr: string)
    ensures var stuck := Sticky(k, spn, eps, saddr);
            stuck.Some? ==> stuck.value in eps && InSet(k, EpSet(spn, stuck.value), saddr)
    ensures Sticky(k, spn, eps, saddr).None? <==> forall e :: e in eps ==> !InSet(k, EpSet(spn, e), saddr)
  {
    hide InSet;
    if eps != [] {
      StickyIsListed(k, spn, eps[1..], saddr);
      assert eps == [eps[0]] + eps[1..];
    }
  }

  lemma PolicyOwned(p: Plan, local: bool, e: Endpoint)
    requires UsesPolicy(p, local) && e in PolicyList(p, local)
    ensures PolicyChain(p, local) in p.OwnChains() && EpChain(p.spn, e) in p.OwnChains()
  {
  }

  lemma PolicyWants(p: Plan, local: bool, e: Endpoint, sc: Option<ScoreMap>, cfg: Config)
    ensures p.WantRules(PolicyChain(p, local), sc, cfg) ==
            (if p.svc.internalPolicyLocal == local then p.InternalRules(cfg) else [])
            + PolicyRules(p.spn, p.svc, PolicyList(p, local), sc)
    ensures p.WantRules(EpChain(p.spn, e), sc, cfg) == EndpointRules(p.spn, p.svc, e.ip, e.port)
  {
  }

  /** A policy chain sends the packet to the chosen endpoint of its list. */
  lemma PolicyChainEval(k: Kernel, cfg: Config, env: Env, pkt: Packet, p: Plan, sc: Option<ScoreMap>, local: bool,
                        t: Trace, d: nat)
    requires PlanInstalled(k, p, sc, cfg) && StockIs(k, cfg, MarkMasq) && UsesPolicy(p, local)
    requires pkt.protocol == p.svc.protocol && d >= 3
    ensures var e := Chosen(k, p, PolicyList(p, local), sc, pkt.saddr, env.random);
            EvalChain(k, env, pkt, PolicyChain(p, local), t, d) ==
            Outcome(Translates(e.ip, e.port),
                    Reached(p, e, pkt,
                            t.(marked := t.marked || (p.svc.internalPolicyLocal == local && MarksInternal(p, cfg, env,
                            pkt)))))
  {
    hide EvalRules, EvalChain, StockIs, MarksInternal, Chosen, PolicyRules, RuleCompiler.Plan.InternalRules,
      RuleCompiler.Plan.OwnChains, RuleCompiler.Plan.WantRules, EndpointRules, EpChain;
    var eps, c := PolicyList(p, local), PolicyChain(p, local);
    var e := Chosen(k, p, eps, sc, pkt.saddr, env.random);
    var t1 := t.(marked := t.marked || (p.svc.internalPolicyLocal == local && MarksInternal(p, cfg, env, pkt)));
    ChosenIsListed(k, p, eps, sc, pkt.saddr, env.random);
    PolicyOwned(p, local, e);
    PolicyWants(p, local, e, sc, cfg);
    EnterChain(k, env, pkt, c, t, d);
    var rules := PolicyRules(p.spn, p.svc, eps, sc);
    if p.svc.internalPolicyLocal == local {
      InternalRulesEval(k, cfg, env, pkt, p, rules, t, d - 1);
    } else {
      assert [] + rules == rules && t1 == t;
    }
    PolicyEval(k, env, pkt, p, eps, sc, t1, d - 1);
    EndpointEval(k, cfg, env, pkt, p, e, t1, d - 1);
  }

  /** Where the external chain sends a packet: to which list and with the mark set or not, or nowhere. */
  datatype Turn = Turn(local: bool, marked: bool) | Nowhere

  ghost function ExternalTurn(p: Plan, cfg: Config, env: Env, pkt: Packet): Turn {
    if !p.svc.externalPolicyLocal then Turn(false, true)
    else if cfg.localDetector && env.fromPod then Turn(false, false)
    else if pkt.saddr in env.local then Turn(false, true)
    else if p.local == [] then Nowhere
    else Turn(true, false)
  }

  /** The rules after the pod short-circuit, for the Local policy. */
  lemma LocalTailEval(k: Kernel, cfg: Config, env: Env, pkt: Packet, p: Plan, last: seq<Rule>, t: Trace, d: nat)
    requires StockIs(k, cfg, MarkMasq) && d > 0
    ensures var a, b := Rule([SaddrTypeLocal], Jump(Stock(MarkMasq))), Rule([SaddrTypeLocal], Goto(p.ClusterChain()));
            EvalRules(k, env, pkt, [a, b] + last, t, d) ==
            if pkt.saddr in env.local
            then EvalChain(k, env, pkt, p.ClusterChain(), t.(marked := true), d)
            else EvalRules(k, env, pkt, last, t, d)
  {
    hide EvalRules, EvalChain, AllHold, StockIs;
    var a, b := Rule([SaddrTypeLocal], Jump(Stock(MarkMasq))), Rule([SaddrTypeLocal], Goto(p.ClusterChain()));
    assert [a, b] + last == [a] + ([b] + last);
    HoldOne(k, env, pkt, t, SaddrTypeLocal);
    HoldOne(k, env, pkt, t.(marked := true), SaddrTypeLocal);
    MarkMasqEval(k, cfg, env, pkt, t, d);
    if pkt.saddr in env.local {
      StepJump(k, env, pkt, a, [b] + last, t, d);
      StepGoto(k, env, pkt, b, last, t.(marked := true), d);
    } else {
      StepSkip(k, env, pkt, a, [b] + last, t, d);
      StepSkip(k, env, pkt, b, last, t, d);
    }
  }

  /** The last rule of the external chain, if there is one. */
  lemma ExternalLastEval(k: Kernel, env: Env, pkt: Packet, p: Plan, t: Trace, d: nat)
    ensures var last := if p.HasExternal() then [Rule([], Goto(p.ExternalPolicyChain()))] else [];
            EvalRules(k, env, pkt, last, t, d) ==
              if p.HasExternal() then EvalChain(k, env, pkt, p.ExternalPolicyChain(), t, d) else Outcome(Ran, t)
  {
    hide EvalRules, EvalChain, AllHold;
    EvalNone(k, env, pkt, t, d);
    HoldOne(k, env, pkt, t, CtStateNew);
    var r := Rule([], Goto(p.ExternalPolicyChain()));
    assert [r] == [r] + [];
    StepGoto(k, env, pkt, r, [], t, d);
  }

  lemma ExternalRulesEval(k: Kernel, cfg: Config, env: Env, pkt: Packet, p: Plan, t: Trace, d: nat)
    requires StockIs(k, cfg, MarkMasq) && p.hasEndpoints && p.svc.ExternallyAccessible() && d > 0
    ensures var turn := ExternalTurn(p, cfg, env, pkt);
            EvalRules(k, env, pkt, p.ExternalRules(cfg), t, d) ==
            if turn.Nowhere?
            then Outcome(Ran, t)
            else EvalChain(k, env, pkt, PolicyChain(p, turn.local), t.(marked := t.marked || turn.marked), d)
  {
    hide EvalRules, EvalChain, AllHold, StockIs;
    var last := if p.HasExternal() then [Rule([], Goto(p.ExternalPolicyChain()))] else [];
    ExternalLastEval(k, env, pkt, p, t, d);
    ExternalLastEval(k, env, pkt, p, t.(marked := true), d);
    assert t.(marked := t.marked) == t;
    if !p.svc.externalPolicyLocal {
      var r := Rule([], Jump(Stock(MarkMasq)));
      assert p.ExternalRules(cfg) == [r] + last;
      HoldOne(k, env, pkt, t, CtStateNew);
      MarkMasqEval(k, cfg, env, pkt, t, d);
      StepJump(k, env, pkt, r, last, t, d);
    } else {
      var r := Rule([FromLocalPod], Goto(p.ClusterChain()));
      var tail := [Rule([SaddrTypeLocal], Jump(Stock(MarkMasq))), Rule([SaddrTypeLocal], Goto(p.ClusterChain()))]
                  + last;
      LocalTailEval(k, cfg, env, pkt, p, last, t, d);
      HoldOne(k, env, pkt, t, FromLocalPod);
      if cfg.localDetector {
        assert p.ExternalRules(cfg) == [r] + tail;
        if env.fromPod {
          StepGoto(k, env, pkt, r, tail, t, d);
        } else {
          StepSkip(k, env, pkt, r, tail, t, d);
        }
      } else {
        assert p.ExternalRules(cfg) == tail;
      }
    }
  }

  lemma FirewallInstalled(k: Kernel, cfg: Config, p: Plan, sc: Option<ScoreMap>) returns (m: Match)
    requires PlanInstalled(k, p, sc, cfg) && p.UsesFirewallChain()
    ensures var ranges, vips := p.svc.loadBalancerSourceRanges, p.svc.loadBalancerVIPs;
            m == SaddrNotIn(ranges, if InRanges(ranges, cfg.nodeIP) then vips else [])
    ensures p.FirewallChain() in k.chains && k.chains[p.FirewallChain()] == [Rule([m], Drop)]
  {
    assert p.AllowFromNode(cfg) <==> InRanges(p.svc.loadBalancerSourceRanges, cfg.nodeIP);
    hide InRanges, RuleCompiler.Plan.AllowFromNode;
    assert p.FirewallChain() in p.OwnChains();
    m := SaddrNotIn(p.svc.loadBalancerSourceRanges, if p.AllowFromNode(cfg) then p.svc.loadBalancerVIPs else []);
  }

  /** The firewall chain drops exactly what no source range admits. */
  lemma FirewallEval(k: Kernel, cfg: Config, env: Env, pkt: Packet, p: Plan, sc: Option<ScoreMap>, t: Trace, d: nat)
    requires PlanInstalled(k, p, sc, cfg) && p.UsesFirewallChain() && pkt.daddr in p.svc.loadBalancerVIPs && d > 0
    ensures EvalChain(k, env, pkt, p.FirewallChain(), t, d) == Outcome(if Forbidden(p, cfg, pkt) then Drops else Ran, t)
  {
    hide EvalRules, EvalChain, AllHold, InRanges, RuleCompiler.Plan.AllowFromNode, PlanInstalled;
    var m := FirewallInstalled(k, cfg, p, sc);
    EnterChain(k, env, pkt, p.FirewallChain(), t, d);
    var r := Rule([m], Drop);
    assert k.chains[p.FirewallChain()] == [r] + [];
    HoldOne(k, env, pkt, t, m);
    EvalNone(k, env, pkt, t, d - 1);
    if Forbidden(p, cfg, pkt) {
      StepSimple(k, env, pkt, r, [], t, d - 1);
    } else {
      StepSkip(k, env, pkt, r, [], t, d - 1);
    }
  }
}
