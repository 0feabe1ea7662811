/**
 The code that writes one service port's chains and rules into a transaction. Each method appends
 to `tx` and carries, as ghost state, the kernel `k` that the transaction built so far leads to from
 `k0`; that it keeps `Run(k0, tx) == Some(k)` says that the kernel refuses nothing of what is written.
 */
module RuleWriter {
  import opened ProxyTypes
  import opened Topology
  import opened Nftables
  import opened RuleCompiler

  lemma ReachableChains(p: Plan, all: seq<Endpoint>)
    requires ReachableList(all, p.cluster, p.local)
    ensures EpChains(p.spn, all) == EpChains(p.spn, p.cluster) + EpChains(p.spn, p.local)
    ensures p.svc.clientIPAffinity ==> EpSets(p.spn, all) == p.OwnSets()
  {
  }

  // ---- Closed forms of what gets written ----

  type Chains = map<Chain, seq<Rule>>

  ghost function Blank(cs: set<Chain>): Chains { map c | c in cs :: [] }

  /** Everything the service port should have in its chains. */
  ghost function Want(p: Plan, sc: Option<ScoreMap>, cfg: Config): Chains {
    map c | c in p.OwnChains() :: p.WantRules(c, sc, cfg)
  }

  ghost function Append(k: Kernel, c: Chain, rules: seq<Rule>): Kernel {
    if rules == [] || c !in k.chains then k else k.(chains := k.chains[c := k.chains[c] + rules])
  }

  ghost function EndpointChains(p: Plan, eps: seq<Endpoint>): Chains {
    map c | c in EpChains(p.spn, eps) :: EndpointRules(p.spn, p.svc, c.ip, c.port)
  }

  ghost function WithSets(sets: map<SetName, set<string>>, more: set<SetName>): map<SetName, set<string>> {
    sets + (map s | s in more && s !in sets :: {})
  }

  // ---- The closed forms grow one endpoint at a time ----

  lemma EpSnoc(spn: ServicePortName, eps: seq<Endpoint>, i: nat)
    requires i < |eps|
    ensures EpChains(spn, eps[..i + 1]) == EpChains(spn, eps[..i]) + {EpChain(spn, eps[i])}
    ensures EpSets(spn, eps[..i + 1]) == EpSets(spn, eps[..i]) + {EpSet(spn, eps[i])}
    ensures EpChain(spn, eps[i]) in EpChains(spn, eps)
  {
    assert eps[..i + 1] == eps[..i] + [eps[i]];
    assert eps[i] in eps;
  }

  lemma EpNone(spn: ServicePortName, eps: seq<Endpoint>)
    ensures EpChains(spn, eps[..0]) == {} && EpSets(spn, eps[..0]) == {}
  {
  }

  lemma BlankSnoc(chains: Chains, cs: set<Chain>, c: Chain)
    ensures (chains + Blank(cs))[c := []] == chains + Blank(cs + {c})
    ensures c in cs ==> chains + Blank(cs) == chains + Blank(cs + {c})
  {
    assert c in cs ==> cs + {c} == cs;
  }

  lemma EpFresh(spn: ServicePortName, eps: seq<Endpoint>, i: nat)
    requires i < |eps| && UniqueAddresses(eps)
    ensures EpChain(spn, eps[i]) !in EpChains(spn, eps[..i])
  {
    forall e | e in eps[..i]
      ensures EpChain(spn, e) != EpChain(spn, eps[i])
    {
      var j :| 0 <= j < i && eps[j] == e;
      assert eps[j].String() != eps[i].String();
    }
  }

  lemma WithSetsNone(sets: map<SetName, set<string>>)
    ensures WithSets(sets, {}) == sets
  {
  }

  lemma RunAddSet(k0: Kernel, tx: seq<Op>, k: Kernel, s: SetName)
    requires Run(k0, tx) == Some(k)
    ensures Run(k0, tx + [AddSet(s)]) == Some(k.(sets := if s in k.sets then k.sets else k.sets[s := {}]))
  {
    RunSnoc(k0, tx, AddSet(s));
  }

  lemma WithSetsSnoc(sets: map<SetName, set<string>>, more: set<SetName>, s: SetName)
    ensures WithSets(sets, more + {s}) ==
            (if s in WithSets(sets, more) then WithSets(sets, more) else WithSets(sets, more)[s := {}])
  {
  }

  lemma EndpointChainsSnoc(p: Plan, k: Kernel, eps: seq<Endpoint>, i: nat)
    requires i < |eps| && EpChain(p.spn, eps[i]) in k.chains && k.chains[EpChain(p.spn, eps[i])] == []
    requires EpChain(p.spn, eps[i]) !in EpChains(p.spn, eps[..i])
    ensures Append(k.(chains := k.chains + EndpointChains(p, eps[..i])), EpChain(p.spn, eps[i]),
                   EndpointRules(p.spn, p.svc, eps[i].ip, eps[i].port))
         == k.(chains := k.chains + EndpointChains(p, eps[..i + 1]))
  {
    EpSnoc(p.spn, eps, i);
    var c, rules := EpChain(p.spn, eps[i]), EndpointRules(p.spn, p.svc, eps[i].ip, eps[i].port);
    var before := k.chains + EndpointChains(p, eps[..i]);
    assert before[c] + rules == rules;
    assert before[c := rules] == k.chains + EndpointChains(p, eps[..i + 1]);
  }

  // ---- Resolving references ----

  /** The service port's chains, and the masquerade chain, are in place. */
  ghost predicate ChainsInPlace(p: Plan, k: Kernel) {
    p.OwnChains() <= k.chains.Keys && Stock(MarkMasq) in k.chains
  }

  lemma Resolves(p: Plan, k: Kernel, rules: seq<Rule>)
    requires ChainsInPlace(p, k) && AllStayWithin(p, rules) && p.OwnSets() <= k.sets.Keys
    ensures forall i :: 0 <= i < |rules| ==> RuleResolves(k, rules[i])
  {
  }

  /** Rules that name no set need none. */
  lemma ResolvesWithoutSets(p: Plan, k: Kernel, rules: seq<Rule>)
    requires ChainsInPlace(p, k) && AllStayWithin(p, rules)
    requires forall i, s :: 0 <= i < |rules| ==> !RuleUsesSet(rules[i], s)
    ensures forall i :: 0 <= i < |rules| ==> RuleResolves(k, rules[i])
  {
  }

  // ---- Primitive writes ----

  method EnsureChain(chain: Chain, tx: seq<Op>, created: set<Chain>, skipCreation: bool, ghost k0: Kernel,
                     ghost k: Kernel)
    returns (tx': seq<Op>, created': set<Chain>, ghost k': Kernel)
    requires Run(k0, tx) == Some(k)
    ensures created' == created + {chain}
    ensures k' == (if chain in created || skipCreation then k else k.(chains := k.chains[chain := []]))
    ensures Run(k0, tx') == Some(k')
  {
    tx', created', k' := tx, created + {chain}, k;
    if chain in created {
      return;
    }
    if skipCreation {
      return;
    }
    RunSnoc(k0, tx, AddChain(chain));
    RunSnoc(k0, tx + [AddChain(chain)], FlushChain(chain));
    assert k.chains[chain := []][chain := []] == k.chains[chain := []];
    tx' := tx + [AddChain(chain)] + [FlushChain(chain)];
    k' := k.(chains := k.chains[chain := []]);
  }

  method WriteRule(chain: Chain, rule: Rule, tx: seq<Op>, ghost k0: Kernel, ghost k: Kernel)
    returns (tx': seq<Op>, ghost k': Kernel)
    requires Run(k0, tx) == Some(k) && chain in k.chains && RuleResolves(k, rule)
    ensures k' == Append(k, chain, [rule])
    ensures Run(k0, tx') == Some(Append(k, chain, [rule]))
  {
    RunSnoc(k0, tx, AddRule(chain, rule));
    tx' := tx + [AddRule(chain, rule)];
    k' := Append(k, chain, [rule]);
  }

  lemma AppendAppend(k: Kernel, c: Chain, a: seq<Rule>, b: seq<Rule>)
    ensures Append(Append(k, c, a), c, b) == Append(k, c, a + b)
  {
    if a == [] {
      assert a + b == b;
    } else if b == [] {
      assert a + b == a;
    } else if c in k.chains {
      assert k.chains[c] + a + b == k.chains[c] + (a + b);
      assert k.chains[c := k.chains[c] + a][c := k.chains[c] + a + b] == k.chains[c := k.chains[c] + (a + b)];
    }
  }

  /** Only chain contents change, so what resolves keeps resolving. */
  lemma AppendKeeps(p: Plan, k: Kernel, c: Chain, rules: seq<Rule>)
    ensures Append(k, c, rules).chains.Keys == k.chains.Keys
    ensures Append(k, c, rules) == k.(chains := Append(k, c, rules).chains)
    ensures ChainsInPlace(p, k) ==> ChainsInPlace(p, Append(k, c, rules))
  {
  }

  // ---- The blocks of the service loop ----

  /** Note the endpoint chains and affinity sets in use, creating the chains unless skipped. */
  method EnsureEndpointChains(spn: ServicePortName, svc: ServicePort, all: seq<Endpoint>, skip: bool,
                              tx: seq<Op>, active: set<Chain>, activeSets: set<SetName>, ghost k0: Kernel,
                              ghost k: Kernel)
    returns (tx': seq<Op>, active': set<Chain>, activeSets': set<SetName>, ghost k': Kernel)
    requires Run(k0, tx) == Some(k) && active !! EpChains(spn, all)
    ensures active' == active + EpChains(spn, all)
    ensures activeSets' == activeSets + (if svc.clientIPAffinity then EpSets(spn, all) else {})
    ensures k' == (if skip then k else k.(chains := k.chains + Blank(EpChains(spn, all))))
    ensures Run(k0, tx') == Some(k')
  {
    hide Run, EpChains, EpSets, EpChain, EpSet;
    tx', active', activeSets', k' := tx, active, activeSets, k;
    EpNone(spn, all);
    assert k.chains + Blank({}) == k.chains && active + {} == active && activeSets + {} == activeSets;
    for i := 0 to |all|
      invariant active' == active + EpChains(spn, all[..i])
      invariant activeSets' == activeSets + (if svc.clientIPAffinity then EpSets(spn, all[..i]) else {})
      invariant k' == (if skip then k else k.(chains := k.chains + Blank(EpChains(spn, all[..i]))))
      invariant Run(k0, tx') == Some(k')
    {
      var e := all[i];
      EpSnoc(spn, all, i);
      BlankSnoc(k.chains, EpChains(spn, all[..i]), EpChain(spn, e));
      assert EpChain(spn, e) in active' <==> EpChain(spn, e) in EpChains(spn, all[..i]);
      tx', active', k' := EnsureChain(EpChain(spn, e), tx', active', skip, k0, k');
      if svc.clientIPAffinity {
        activeSets' := activeSets' + {EpSet(spn, e)};
      }
    }
    assert all[..|all|] == all;
  }

  method WriteInternalRules(p: Plan, cfg: Config, tx: seq<Op>, ghost k0: Kernel, ghost k: Kernel)
    returns (tx': seq<Op>, ghost k': Kernel)
    requires p.Consistent() && Run(k0, tx) == Some(k) && ChainsInPlace(p, k)
    ensures k' == Append(k, p.InternalPolicyChain(), p.InternalRules(cfg))
    ensures Run(k0, tx') == Some(Append(k, p.InternalPolicyChain(), p.InternalRules(cfg)))
  {
    tx', k' := tx, k;
    if p.HasInternal() {
      assert p.InternalPolicyChain() in p.OwnChains();
      if cfg.masqueradeAll {
        tx', k' := WriteMasqueradeRule(p, p.InternalPolicyChain(),
          [DaddrIs(p.svc.clusterIP), DportIs(p.svc.protocol, p.svc.port)], tx, k0, k);
      } else if cfg.localDetector {
        tx', k' := WriteMasqueradeRule(p, p.InternalPolicyChain(),
          [DaddrIs(p.svc.clusterIP), DportIs(p.svc.protocol, p.svc.port)] + [NotFromLocalPod], tx, k0, k);
      }
    }
  }

  method WriteMasqueradeRule(p: Plan, chain: Chain, matches: seq<Match>, tx: seq<Op>, ghost k0: Kernel, ghost k: Kernel)
    returns (tx': seq<Op>, ghost k': Kernel)
    requires Run(k0, tx) == Some(k) && ChainsInPlace(p, k) && chain in k.chains
    requires forall i :: 0 <= i < |matches| ==>
               matches[i].DaddrIs? || matches[i].DportIs? || matches[i].NotFromLocalPod?
    ensures k' == Append(k, chain, [Rule(matches, Jump(Stock(MarkMasq)))])
    ensures Run(k0, tx') == Some(Append(k, chain, [Rule(matches, Jump(Stock(MarkMasq)))]))
  {
    tx', k' := WriteRule(chain, Rule(matches, Jump(Stock(MarkMasq))), tx, k0, k);
  }

  /** One rule of the external chain, appended to those already there. */
  method WriteExternalRule(p: Plan, matches: seq<Match>, action: Action, ghost done: seq<Rule>,
                           tx: seq<Op>, ghost k0: Kernel, ghost start: Kernel, ghost k: Kernel)
    returns (tx': seq<Op>, ghost k': Kernel, ghost done': seq<Rule>)
    requires Run(k0, tx) == Some(k) && ChainsInPlace(p, start) && p.ExternalChain() in p.OwnChains()
    requires k == Append(start, p.ExternalChain(), done)
    requires matches == [] || matches == [FromLocalPod] || matches == [SaddrTypeLocal]
    requires action == Jump(Stock(MarkMasq)) || (action.Goto? && action.target in p.OwnChains())
    ensures done' == done + [Rule(matches, action)]
    ensures k' == Append(start, p.ExternalChain(), done')
    ensures Run(k0, tx') == Some(Append(start, p.ExternalChain(), done'))
  {
    PlainRuleStaysWithin(p, matches, action);
    AppendKeeps(p, start, p.ExternalChain(), done);
    ResolvesWithoutSets(p, k, [Rule(matches, action)]);
    assert RuleResolves(k, [Rule(matches, action)][0]);
    tx', k' := WriteRule(p.ExternalChain(), Rule(matches, action), tx, k0, k);
    done' := done + [Rule(matches, action)];
    AppendAppend(start, p.ExternalChain(), done, [Rule(matches, action)]);
  }

  /** Where external traffic is sent to exists. */
  lemma ExternalTargets(p: Plan)
    requires p.Consistent()
    ensures p.UsesExternalChain() ==> p.ExternalChain() in p.OwnChains() && p.ClusterChain() in p.OwnChains()
    ensures p.UsesExternalChain() && p.HasExternal() ==> p.ExternalPolicyChain() in p.OwnChains()
  {
  }

  lemma AppendNothing(k: Kernel, c: Chain)
    ensures Append(k, c, []) == k
  {
  }

  method WriteExternalRules(p: Plan, cfg: Config, tx: seq<Op>, ghost k0: Kernel, ghost k: Kernel)
    returns (tx': seq<Op>, ghost k': Kernel)
    requires p.Consistent() && Run(k0, tx) == Some(k) && ChainsInPlace(p, k)
    ensures k' == Append(k, p.ExternalChain(), p.ExternalRules(cfg))
    ensures Run(k0, tx') == Some(Append(k, p.ExternalChain(), p.ExternalRules(cfg)))
  {
    hide Run, ChainsInPlace, Append, RuleCompiler.Plan.Consistent, RuleCompiler.Plan.OwnChains;
    ExternalTargets(p);
    tx', k' := tx, k;
    AppendNothing(k, p.ExternalChain());
    if p.UsesExternalChain() {
      ghost var done := [];
      if !p.svc.externalPolicyLocal {
        tx', k', done := WriteExternalRule(p, [], Jump(Stock(MarkMasq)), done, tx', k0, k, k');
      } else {
        if cfg.localDetector {
          tx', k', done := WriteExternalRule(p, [FromLocalPod], Goto(p.ClusterChain()), done, tx', k0, k, k');
        }
        tx', k', done := WriteExternalRule(p, [SaddrTypeLocal], Jump(Stock(MarkMasq)), done, tx', k0, k, k');
        tx', k', done := WriteExternalRule(p, [SaddrTypeLocal], Goto(p.ClusterChain()), done, tx', k0, k, k');
      }
      if p.HasExternal() {
        tx', k', done := WriteExternalRule(p, [], Goto(p.ExternalPolicyChain()), done, tx', k0, k, k');
      }
      assert done == p.ExternalRules(cfg);
    }
  }

  method WriteFirewallRule(p: Plan, cfg: Config, tx: seq<Op>, ghost k0: Kernel, ghost k: Kernel)
    returns (tx': seq<Op>, ghost k': Kernel)
    requires Run(k0, tx) == Some(k) && ChainsInPlace(p, k)
    ensures k' == Append(k, p.FirewallChain(), p.FirewallRules(cfg))
    ensures Run(k0, tx') == Some(Append(k, p.FirewallChain(), p.FirewallRules(cfg)))
  {
    tx', k' := tx, k;
    if p.UsesFirewallChain() {
      var sources: seq<Cidr>, vips: seq<string>, allowFromNode := [], [], false;
      var ranges := p.svc.loadBalancerSourceRanges;
      for i := 0 to |ranges|
        invariant sources == ranges[..i]
        invariant allowFromNode <==> exists j :: 0 <= j < i && cfg.nodeIP in ranges[j].members
      {
        sources := sources + [ranges[i]];
        if cfg.nodeIP in ranges[i].members {
          allowFromNode := true;
        }
      }
      if allowFromNode {
        for i := 0 to |p.svc.loadBalancerVIPs|
          invariant vips == p.svc.loadBalancerVIPs[..i]
        {
          vips := vips + [p.svc.loadBalancerVIPs[i]];
        }
      }
      assert sources == ranges;
      assert vips == (if p.AllowFromNode(cfg) then p.svc.loadBalancerVIPs else []);
      assert p.FirewallChain() in p.OwnChains();
      tx', k' := WriteRule(p.FirewallChain(), Rule([SaddrNotIn(sources, vips)], Drop), tx, k0, k);
    }
  }

  /** The per-endpoint affinity sets; an existing set keeps what clients it remembers. */
  method WriteAffinitySets(p: Plan, all: seq<Endpoint>, tx: seq<Op>, ghost k0: Kernel, ghost k: Kernel)
    returns (tx': seq<Op>, ghost k': Kernel)
    requires Run(k0, tx) == Some(k) && ReachableList(all, p.cluster, p.local)
    ensures k' == k.(sets := WithSets(k.sets, p.OwnSets()))
    ensures Run(k0, tx') == Some(k.(sets := WithSets(k.sets, p.OwnSets())))
  {
    tx', k' := tx, k;
    WithSetsNone(k.sets);
    if p.svc.clientIPAffinity {
      ReachableChains(p, all);
      assert EpSets(p.spn, all[..0]) == {};
      for i := 0 to |all|
        invariant k' == k.(sets := WithSets(k.sets, EpSets(p.spn, all[..i])))
        invariant Run(k0, tx') == Some(k')
      {
        var s := EpSet(p.spn, all[i]);
        EpSnoc(p.spn, all, i);
        RunAddSet(k0, tx', k', s);
        WithSetsSnoc(k.sets, EpSets(p.spn, all[..i]), s);
        tx' := tx' + [AddSet(s)];
        k' := k.(sets := WithSets(k.sets, EpSets(p.spn, all[..i + 1])));
      }
      assert all[..|all|] == all;
    }
  }

  /** Clients an endpoint's affinity set remembers go back to that endpoint. */
  method WriteAffinityRules(p: Plan, chain: Chain, eps: seq<Endpoint>, tx: seq<Op>, ghost k0: Kernel, ghost k: Kernel)
    returns (tx': seq<Op>, ghost k': Kernel)
    requires Run(k0, tx) == Some(k) && ChainsInPlace(p, k) && p.OwnSets() <= k.sets.Keys
    requires chain in k.chains && AllStayWithin(p, AffinityRules(p.spn, eps))
    ensures k' == Append(k, chain, AffinityRules(p.spn, eps))
    ensures Run(k0, tx') == Some(Append(k, chain, AffinityRules(p.spn, eps)))
  {
    ghost var rules := AffinityRules(p.spn, eps);
    tx', k' := tx, k;
    for i := 0 to |eps|
      invariant k' == Append(k, chain, rules[..i])
      invariant Run(k0, tx') == Some(k')
    {
      AppendKeeps(p, k, chain, rules[..i]);
      Resolves(p, k', rules);
      AppendAppend(k, chain, rules[..i], [rules[i]]);
      assert rules[..i + 1] == rules[..i] + [rules[i]];
      tx', k' := WriteRule(chain, Rule([SaddrInSet(EpSet(p.spn, eps[i]))], Goto(EpChain(p.spn, eps[i]))), tx', k0, k');
    }
    assert rules[..|eps|] == rules;
  }

  /** One dispatch rule: weighted when some endpoint has a positive score, even otherwise. */
  method BuildDispatchRule(spn: ServicePortName, eps: seq<Endpoint>, sc: Option<ScoreMap>) returns (rule: Rule)
    ensures rule == DispatchRule(spn, eps, sc)
  {
    var useWao := false;
    if sc.Some? {
      useWao := AnyPositive(eps, sc.value);
    }
    if useWao {
      var total, arms := BuildWaoArms(spn, eps, sc.value);
      rule := Rule([], NumgenVmap(total, arms));
    } else {
      var arms := BuildEvenArms(spn, eps);
      rule := Rule([], NumgenVmap(|eps|, arms));
    }
  }

  /** Session affinity first, then dispatch. */
  method WriteServiceToEndpointRules(p: Plan, chain: Chain, eps: seq<Endpoint>, sc: Option<ScoreMap>,
                                     tx: seq<Op>, ghost k0: Kernel, ghost k: Kernel)
    returns (tx': seq<Op>, ghost k': Kernel)
    requires Run(k0, tx) == Some(k) && ChainsInPlace(p, k) && p.OwnSets() <= k.sets.Keys
    requires chain in k.chains && (eps == p.cluster || eps == p.local)
    ensures k' == Append(k, chain, PolicyRules(p.spn, p.svc, eps, sc))
    ensures Run(k0, tx') == Some(Append(k, chain, PolicyRules(p.spn, p.svc, eps, sc)))
  {
    PolicyRulesStayWithin(p, eps, sc);
    ghost var affinity := if p.svc.clientIPAffinity then AffinityRules(p.spn, eps) else [];
    ghost var rules := PolicyRules(p.spn, p.svc, eps, sc);
    assert forall i :: 0 <= i < |affinity| ==> affinity[i] == rules[i];
    tx', k' := tx, k;
    if p.svc.clientIPAffinity {
      tx', k' := WriteAffinityRules(p, chain, eps, tx, k0, k);
    }
    var rule := BuildDispatchRule(p.spn, eps, sc);
    assert rules[|affinity|] == rule;
    AppendKeeps(p, k, chain, affinity);
    Resolves(p, k', rules);
    AppendAppend(k, chain, affinity, [rule]);
    tx', k' := WriteRule(chain, rule, tx', k0, k');
  }

  method AnyPositive(eps: seq<Endpoint>, scores: ScoreMap) returns (any: bool)
    ensures any == UsesWao(eps, Some(scores))
  {
    any := false;
    for i := 0 to |eps|
      invariant !any
      invariant forall j :: 0 <= j < i ==> ScoreOf(scores, eps[j].ip) <= 0
    {
      if ScoreOf(scores, eps[i].ip) > 0 {
        return true;
      }
    }
  }

  method BuildWaoArms(spn: ServicePortName, eps: seq<Endpoint>, scores: ScoreMap) returns (total: int, arms: seq<Arm>)
    ensures total == TotalScore(eps, scores) && arms == WaoArms(spn, eps, scores)
  {
    total, arms := 0, [];
    for i := 0 to |eps|
      invariant total == TotalScore(eps[..i], scores) && arms == WaoArms(spn, eps[..i], scores)
    {
      var e := eps[i];
      assert eps[..i + 1][..i] == eps[..i];
      if e.ip in scores && scores[e.ip] > 0 {
        var score := scores[e.ip];
        arms := arms + [Arm(total, total + score - 1, EpChain(spn, e))];
        total := total + score;
      }
    }
    assert eps[..|eps|] == eps;
  }

  method BuildEvenArms(spn: ServicePortName, eps: seq<Endpoint>) returns (arms: seq<Arm>)
    ensures arms == EvenArms(spn, eps)
  {
    arms := [];
    for i := 0 to |eps|
      invariant |arms| == i
      invariant forall j :: 0 <= j < i ==> arms[j] == Arm(j, j, EpChain(spn, eps[j]))
    {
      arms := arms + [Arm(i, i, EpChain(spn, eps[i]))];
    }
  }

  method WriteEndpointChain(p: Plan, e: Endpoint, tx: seq<Op>, ghost k0: Kernel, ghost k: Kernel)
    returns (tx': seq<Op>, ghost k': Kernel)
    requires Run(k0, tx) == Some(k) && ChainsInPlace(p, k) && p.OwnSets() <= k.sets.Keys
    requires EpChain(p.spn, e) in p.OwnChains()
    ensures k' == Append(k, EpChain(p.spn, e), EndpointRules(p.spn, p.svc, e.ip, e.port))
    ensures Run(k0, tx') == Some(Append(k, EpChain(p.spn, e), EndpointRules(p.spn, p.svc, e.ip, e.port)))
  {
    var chain := EpChain(p.spn, e);
    ghost var rules := EndpointRules(p.spn, p.svc, e.ip, e.port);
    OwnSetOfOwnChain(p, chain);
    EndpointRulesStayWithin(p, e.ip, e.port);
    Resolves(p, k, rules);
    var hairpin := Rule([SaddrIs(e.ip)], Jump(Stock(MarkMasq)));
    assert rules[0] == hairpin;
    tx', k' := WriteRule(chain, hairpin, tx, k0, k);
    ghost var done := [hairpin];
    if p.svc.clientIPAffinity {
      AppendKeeps(p, k, chain, done);
      Resolves(p, k', rules);
      var remember := Rule([], UpdateAffinity(EpSet(p.spn, e)));
      assert rules[1] == remember;
      tx', k' := WriteRule(chain, remember, tx', k0, k');
      AppendAppend(k, chain, done, [remember]);
      done := done + [remember];
    }
    AppendKeeps(p, k, chain, done);
    Resolves(p, k', rules);
    var dnat := Rule([L4ProtocolIs(p.svc.protocol)], Dnat(e.ip, e.port));
    assert rules == done + [dnat] && rules[|done|] == dnat;
    tx', k' := WriteRule(chain, dnat, tx', k0, k');
    AppendAppend(k, chain, done, [dnat]);
  }

  /** All endpoint chains, which were just emptied, get their rules. */
  method WriteEndpointChains(p: Plan, all: seq<Endpoint>, tx: seq<Op>, ghost k0: Kernel, ghost k: Kernel)
    returns (tx': seq<Op>, ghost k': Kernel)
    requires Run(k0, tx) == Some(k) && ChainsInPlace(p, k) && p.OwnSets() <= k.sets.Keys
    requires ReachableList(all, p.cluster, p.local)
    requires forall c :: c in EpChains(p.spn, all) ==> c in k.chains && k.chains[c] == []
    ensures k' == k.(chains := k.chains + EndpointChains(p, all))
    ensures Run(k0, tx') == Some(k.(chains := k.chains + EndpointChains(p, all)))
  {
    tx', k' := tx, k;
    assert k.chains + EndpointChains(p, all[..0]) == k.chains;
    for i := 0 to |all|
      invariant k' == k.(chains := k.chains + EndpointChains(p, all[..i]))
      invariant Run(k0, tx') == Some(k')
    {
      var e := all[i];
      ghost var chain := EpChain(p.spn, e);
      assert e in all;
      EpSnoc(p.spn, all, i);
      ReachableChains(p, all);
      EpFresh(p.spn, all, i);
      EndpointChainsSnoc(p, k, all, i);
      tx', k' := WriteEndpointChain(p, e, tx', k0, k');
    }
    assert all[..|all|] == all;
  }

  // ---- All rules of one service port ----

  /** Rules that come before the affinity sets. */
  ghost function TrafficRules(p: Plan, cfg: Config, k: Kernel): Kernel {
    Append(Append(Append(k, p.InternalPolicyChain(), p.InternalRules(cfg)),
                  p.ExternalChain(), p.ExternalRules(cfg)),
           p.FirewallChain(), p.FirewallRules(cfg))
  }

  ghost function DispatchRules(p: Plan, sc: Option<ScoreMap>, k: Kernel): Kernel {
    var k1 := if p.UsesClusterChain() then Append(k, p.ClusterChain(), PolicyRules(p.spn, p.svc, p.cluster, sc)) else k;
    if p.UsesLocalChain() then Append(k1, p.LocalChain(), PolicyRules(p.spn, p.svc, p.local, sc)) else k1
  }

  lemma AppendAt(k: Kernel, c: Chain, rules: seq<Rule>, d: Chain)
    requires d in k.chains
    ensures d in Append(k, c, rules).chains
    ensures Append(k, c, rules).chains[d] == k.chains[d] + (if d == c then rules else [])
  {
  }

  lemma TrafficRulesAt(p: Plan, cfg: Config, k: Kernel, d: Chain)
    requires d in k.chains
    ensures TrafficRules(p, cfg, k).chains.Keys == k.chains.Keys
    ensures TrafficRules(p, cfg, k).chains[d] == k.chains[d] + TrafficPart(p, cfg, d)
  {
    var k1 := Append(k, p.InternalPolicyChain(), p.InternalRules(cfg));
    var k2 := Append(k1, p.ExternalChain(), p.ExternalRules(cfg));
    AppendAt(k, p.InternalPolicyChain(), p.InternalRules(cfg), d);
    AppendAt(k1, p.ExternalChain(), p.ExternalRules(cfg), d);
    AppendAt(k2, p.FirewallChain(), p.FirewallRules(cfg), d);
  }

  lemma DispatchRulesAt(p: Plan, sc: Option<ScoreMap>, k: Kernel, d: Chain)
    requires d in k.chains
    ensures DispatchRules(p, sc, k).chains.Keys == k.chains.Keys
    ensures DispatchRules(p, sc, k).chains[d] == k.chains[d] + DispatchPart(p, sc, d)
  {
    var k1 := if p.UsesClusterChain() then Append(k, p.ClusterChain(), PolicyRules(p.spn, p.svc, p.cluster, sc)) else k;
    AppendAt(k, p.ClusterChain(), PolicyRules(p.spn, p.svc, p.cluster, sc), d);
    AppendAt(k1, p.LocalChain(), PolicyRules(p.spn, p.svc, p.local, sc), d);
  }

  /** `w` is `chains` with each chain extended by its parts. */
  ghost predicate ExtendedByParts(p: Plan, cfg: Config, sc: Option<ScoreMap>, chains: Chains, w: Chains) {
    && w.Keys == chains.Keys
    && forall d :: d in chains ==> w[d] == chains[d] + TrafficPart(p, cfg, d) + DispatchPart(p, sc, d)
  }

  lemma RulesExtend(p: Plan, cfg: Config, sc: Option<ScoreMap>, k: Kernel, kD: Kernel)
    requires Stock(MarkMasq) in k.chains && kD == TrafficRules(p, cfg, k).(sets := kD.sets)
    ensures ExtendedByParts(p, cfg, sc, k.chains, DispatchRules(p, sc, kD).chains)
  {
    TrafficRulesAt(p, cfg, k, Stock(MarkMasq));
    DispatchRulesAt(p, sc, kD, Stock(MarkMasq));
    forall d | d in k.chains
      ensures DispatchRules(p, sc, kD).chains[d] == k.chains[d] + TrafficPart(p, cfg, d) + DispatchPart(p, sc, d)
    {
      TrafficRulesAt(p, cfg, k, d);
      DispatchRulesAt(p, sc, kD, d);
    }
  }

  /** Chain by chain, what was written is what was wanted. */
  lemma RulesComplete(p: Plan, cfg: Config, sc: Option<ScoreMap>, all: seq<Endpoint>, chains: Chains, w: Chains)
    requires p.Consistent() && p.OwnChains() <= chains.Keys
    requires EpChains(p.spn, all) == EpChains(p.spn, p.cluster) + EpChains(p.spn, p.local)
    requires forall c :: c in p.OwnChains() ==> chains[c] == []
    requires ExtendedByParts(p, cfg, sc, chains, w)
    ensures w + EndpointChains(p, all) == chains + Want(p, sc, cfg)
  {
    hide RuleCompiler.Plan.WantRules, TrafficPart, DispatchPart, RuleCompiler.Plan.Consistent,
      RuleCompiler.Plan.OwnChains, EndpointRules, EpChains;
    OwnsEndpointChains(p);
    var eps := EndpointChains(p, all);
    var written, wanted := w + eps, chains + Want(p, sc, cfg);
    assert eps.Keys <= chains.Keys;
    forall d | d in chains
      ensures written[d] == wanted[d]
    {
      ChainComplete(p, cfg, sc, chains[d], w[d], d);
    }
  }

  lemma OwnsEndpointChains(p: Plan)
    ensures EpChains(p.spn, p.cluster) + EpChains(p.spn, p.local) <= p.OwnChains()
  {
    hide EpChains;
  }

  lemma ChainComplete(p: Plan, cfg: Config, sc: Option<ScoreMap>, start: seq<Rule>, end: seq<Rule>, d: Chain)
    requires p.Consistent() && (d in p.OwnChains() ==> start == [])
    requires end == start + TrafficPart(p, cfg, d) + DispatchPart(p, sc, d)
    ensures d in EpChains(p.spn, p.cluster) + EpChains(p.spn, p.local) ==>
              d in p.OwnChains() && d.EndpointChain?
              && p.WantRules(d, sc, cfg) == EndpointRules(p.spn, p.svc, d.ip, d.port)
    ensures d !in EpChains(p.spn, p.cluster) + EpChains(p.spn, p.local) ==>
              end == if d in p.OwnChains() then p.WantRules(d, sc, cfg) else start
  {
    OwnEndpointChain(p, cfg, sc, d);
    PartsMakeWhole(p, cfg, sc, start, d);
  }

  lemma OwnEndpointChain(p: Plan, cfg: Config, sc: Option<ScoreMap>, d: Chain)
    ensures d in EpChains(p.spn, p.cluster) + EpChains(p.spn, p.local) <==> d in p.OwnChains() && d.EndpointChain?
    ensures d in p.OwnChains() && d.EndpointChain? ==>
              p.WantRules(d, sc, cfg) == EndpointRules(p.spn, p.svc, d.ip, d.port)
    ensures d in p.OwnChains() ==> d.ServiceChain? || d.EndpointChain?
  {
  }

  lemma PartsMakeWhole(p: Plan, cfg: Config, sc: Option<ScoreMap>, start: seq<Rule>, d: Chain)
    requires p.Consistent() && (d in p.OwnChains() ==> start == [])
    ensures d in p.OwnChains() && d.ServiceChain? ==>
              start + TrafficPart(p, cfg, d) + DispatchPart(p, sc, d) == p.WantRules(d, sc, cfg)
    ensures d !in p.OwnChains() ==> start + TrafficPart(p, cfg, d) + DispatchPart(p, sc, d) == start
    ensures d.EndpointChain? ==> start + TrafficPart(p, cfg, d) + DispatchPart(p, sc, d) == start
  {
    if d !in p.OwnChains() {
      UnownedChainParts(p, cfg, sc, d);
    } else if d.ServiceChain? {
      OwnedChainParts(p, cfg, sc, d);
      assert [] + TrafficPart(p, cfg, d) == TrafficPart(p, cfg, d);
    }
  }

  /** The traffic rules that go to chain `d`. */
  ghost function TrafficPart(p: Plan, cfg: Config, d: Chain): seq<Rule> {
    if d == p.InternalPolicyChain() then p.InternalRules(cfg)
    else if d == p.ExternalChain() then p.ExternalRules(cfg)
    else if d == p.FirewallChain() then p.FirewallRules(cfg)
    else []
  }

  /** The dispatch rules that go to chain `d`. */
  ghost function DispatchPart(p: Plan, sc: Option<ScoreMap>, d: Chain): seq<Rule> {
    if d == p.ClusterChain() && p.UsesClusterChain() then PolicyRules(p.spn, p.svc, p.cluster, sc)
    else if d == p.LocalChain() && p.UsesLocalChain() then PolicyRules(p.spn, p.svc, p.local, sc)
    else []
  }

  lemma OwnedChainParts(p: Plan, cfg: Config, sc: Option<ScoreMap>, d: Chain)
    requires p.Consistent() && d in p.OwnChains() && d.ServiceChain?
    ensures TrafficPart(p, cfg, d) + DispatchPart(p, sc, d) == p.WantRules(d, sc, cfg)
  {
    OwnServiceChain(p, d.kind);
    match d.kind
    case ClusterPolicy =>
      assert TrafficPart(p, cfg, d) == (if p.svc.internalPolicyLocal then [] else p.InternalRules(cfg));
    case LocalPolicy =>
      assert TrafficPart(p, cfg, d) == (if p.svc.internalPolicyLocal then p.InternalRules(cfg) else []);
    case External =>
    case Firewall =>
  }

  lemma UnownedChainParts(p: Plan, cfg: Config, sc: Option<ScoreMap>, d: Chain)
    requires p.Consistent() && d !in p.OwnChains()
    ensures TrafficPart(p, cfg, d) == [] && DispatchPart(p, sc, d) == []
  {
    if d.ServiceChain? && d.spn == p.spn {
      OwnServiceChain(p, d.kind);
    }
  }

  lemma OwnServiceChain(p: Plan, kind: ServiceChainKind)
    ensures ServiceChain(kind, p.spn) in p.OwnChains() <==>
            (match kind
             case ClusterPolicy => p.UsesClusterChain()
             case LocalPolicy => p.UsesLocalChain()
             case External => p.UsesExternalChain()
             case Firewall => p.UsesFirewallChain())
  {
  }

  /** Everything written for a service port that is not skipped, once its chains are created. */
  method WriteServiceRules(p: Plan, cfg: Config, sc: Option<ScoreMap>, all: seq<Endpoint>,
                           tx: seq<Op>, ghost k0: Kernel, ghost k: Kernel)
    returns (tx': seq<Op>, ghost k': Kernel)
    requires p.Consistent() && ReachableList(all, p.cluster, p.local)
    requires Run(k0, tx) == Some(k) && ChainsInPlace(p, k)
    requires forall c :: c in p.OwnChains() ==> k.chains[c] == []
    ensures k' == k.(chains := k.chains + Want(p, sc, cfg), sets := WithSets(k.sets, p.OwnSets()))
    ensures Run(k0, tx') == Some(k.(chains := k.chains + Want(p, sc, cfg), sets := WithSets(k.sets, p.OwnSets())))
  {
    ghost var kA, kB, kC, kD, kE, kF;
    tx', kA := WriteInternalRules(p, cfg, tx, k0, k);
    AppendKeeps(p, k, p.InternalPolicyChain(), p.InternalRules(cfg));
    tx', kB := WriteExternalRules(p, cfg, tx', k0, kA);
    AppendKeeps(p, kA, p.ExternalChain(), p.ExternalRules(cfg));
    tx', kC := WriteFirewallRule(p, cfg, tx', k0, kB);
    AppendKeeps(p, kB, p.FirewallChain(), p.FirewallRules(cfg));
    assert kC == TrafficRules(p, cfg, k);
    tx', kD := WriteAffinitySets(p, all, tx', k0, kC);
    kE := kD;
    if p.UsesClusterChain() {
      tx', kE := WriteServiceToEndpointRules(p, p.ClusterChain(), p.cluster, sc, tx', k0, kD);
      AppendKeeps(p, kD, p.ClusterChain(), PolicyRules(p.spn, p.svc, p.cluster, sc));
    }
    kF := kE;
    if p.UsesLocalChain() {
      tx', kF := WriteServiceToEndpointRules(p, p.LocalChain(), p.local, sc, tx', k0, kE);
      AppendKeeps(p, kE, p.LocalChain(), PolicyRules(p.spn, p.svc, p.local, sc));
    }
    assert kF == DispatchRules(p, sc, kD);
    ReachableChains(p, all);
    RulesExtend(p, cfg, sc, k, kD);
    forall c | c in EpChains(p.spn, all)
      ensures c in kF.chains && kF.chains[c] == []
    {
      PartsMakeWhole(p, cfg, sc, k.chains[c], c);
    }
    tx', k' := WriteEndpointChains(p, all, tx', k0, kF);
    RulesComplete(p, cfg, sc, all, k.chains, kF.chains);
  }
}
