/** One iteration of the service loop of `syncProxyRules`: chains, verdict elements, then rules. */
module ServiceWriter {
  import opened Strings
  import opened ProxyTypes
  import opened Topology
  import opened Nftables
  import opened RuleCompiler
  import opened ElementStorage
  import opened RuleWriter

  // ---- Chains ----

  /** The chains created before any element is written; the firewall chain comes later. */
  ghost function EarlyChains(p: Plan): set<Chain> {
    EpChains(p.spn, p.cluster) + EpChains(p.spn, p.local)
    + If(p.UsesClusterChain(), p.ClusterChain()) + If(p.UsesLocalChain(), p.LocalChain())
    + If(p.UsesExternalChain(), p.ExternalChain())
  }

  ghost function WithBlank(k: Kernel, skip: bool, cs: set<Chain>): Kernel {
    if skip then k else k.(chains := k.chains + Blank(cs))
  }

  lemma WithBlankSnoc(k: Kernel, skip: bool, cs: set<Chain>, c: Chain)
    ensures WithBlank(k, skip, cs + {c}) ==
            (if skip then k else WithBlank(k, skip, cs).(chains := WithBlank(k, skip, cs).chains[c := []]))
  {
    BlankSnoc(k.chains, cs, c);
  }

  method EnsureIf(b: bool, chain: Chain, skip: bool, tx: seq<Op>, active: set<Chain>,
                  ghost k0: Kernel, ghost start: Kernel, ghost done: set<Chain>, ghost k: Kernel)
    returns (tx': seq<Op>, active': set<Chain>, ghost k': Kernel)
    requires Run(k0, tx) == Some(k) && chain !in active && k == WithBlank(start, skip, done)
    ensures active' == active + If(b, chain)
    ensures k' == WithBlank(start, skip, done + If(b, chain))
    ensures Run(k0, tx') == Some(k')
  {
    tx', active', k' := tx, active, k;
    if b {
      WithBlankSnoc(start, skip, done, chain);
      tx', active', k' := EnsureChain(chain, tx, active, skip, k0, k);
    } else {
      assert done + If(b, chain) == done;
    }
  }

  /** The early chains in the order they are ensured; none of them was noted before. */
  lemma EarlyChainsAre(p: Plan, active: set<Chain>)
    requires forall c :: c in active ==> c.Stock? || c.spn != p.spn
    ensures var eps := EpChains(p.spn, p.cluster) + EpChains(p.spn, p.local);
            && active !! eps && p.ClusterChain() !in active + eps && p.LocalChain() !in active + eps
            && p.ExternalChain() !in active + eps && p.FirewallChain() !in active + eps
            && EarlyChains(p) ==
                 eps + If(p.UsesClusterChain(), p.ClusterChain()) + If(p.UsesLocalChain(), p.LocalChain())
                                 + If(p.UsesExternalChain(), p.ExternalChain())
    ensures p.OwnSets() == if p.svc.clientIPAffinity then EpSets(p.spn, p.cluster) + EpSets(p.spn, p.local) else {}
  {
    hide EpSets;
  }

  method EnsureEarlyChains(p: Plan, all: seq<Endpoint>, skip: bool, tx: seq<Op>, active: set<Chain>,
                           activeSets: set<SetName>,
                           ghost k0: Kernel, ghost k: Kernel)
    returns (tx': seq<Op>, active': set<Chain>, activeSets': set<SetName>, ghost k': Kernel)
    requires Run(k0, tx) == Some(k) && ReachableList(all, p.cluster, p.local)
    requires forall c :: c in active ==> c.Stock? || c.spn != p.spn
    ensures active' == active + EarlyChains(p) && p.FirewallChain() !in active'
    ensures activeSets' == activeSets + p.OwnSets()
    ensures k' == WithBlank(k, skip, EarlyChains(p))
    ensures Run(k0, tx') == Some(k')
  {
    hide Run, EpChains, EpSets, ReachableList, EarlyChains, Blank, RuleCompiler.Plan.OwnSets;
    ReachableChains(p, all);
    EarlyChainsAre(p, active);
    ghost var done := EpChains(p.spn, p.cluster) + EpChains(p.spn, p.local);
    tx', active', activeSets', k' := EnsureEndpointChains(p.spn, p.svc, all, skip, tx, active, activeSets, k0, k);
    tx', active', k' := EnsureIf(p.UsesClusterChain(), p.ClusterChain(), skip, tx', active', k0, k, done, k');
    done := done + If(p.UsesClusterChain(), p.ClusterChain());
    tx', active', k' := EnsureIf(p.UsesLocalChain(), p.LocalChain(), skip, tx', active', k0, k, done, k');
    done := done + If(p.UsesLocalChain(), p.LocalChain());
    tx', active', k' := EnsureIf(p.UsesExternalChain(), p.ExternalChain(), skip, tx', active', k0, k, done, k');
  }

  // ---- Elements ----

  /** The writes name existing containers and chains, with keys that survive storing. */
  ghost predicate Land(es: seq<Element>, k: Kernel) {
    forall e :: e in es ==>
      e.container in k.containers && SpaceFreeKey(e.key) && (e.value.GotoChain? ==> e.value.chain in k.chains)
  }

  ghost function WithElements(k: Kernel, es: seq<Element>): Kernel {
    k.(elements := Puts(k.elements, es))
  }

  /** `tx` has reached `start` with the elements `done` written on top; the sync wrote `es` before those. */
  ghost predicate Progress(st: NftElementStorage, k0: Kernel, tx: seq<Op>, start: Kernel, es: seq<Element>,
                           done: seq<Element>)
    reads st
  {
    && Run(k0, tx) == Some(WithElements(start, done))
    && st.Writing(Puts(start.elements, done), es + done)
  }

  lemma StartProgress(st: NftElementStorage, k0: Kernel, tx: seq<Op>, k: Kernel, es: seq<Element>)
    requires Run(k0, tx) == Some(k) && st.Writing(k.elements, es)
    ensures Progress(st, k0, tx, k, es, [])
  {
    assert es + [] == es;
  }

  method WriteElement(st: NftElementStorage, e: Element, tx: seq<Op>,
                      ghost k0: Kernel, ghost start: Kernel, ghost es: seq<Element>, ghost done: seq<Element>)
    returns (tx': seq<Op>)
    requires Progress(st, k0, tx, start, es, done) && Land([e], start)
    modifies st
    ensures Progress(st, k0, tx', start, es, done + [e])
  {
    ghost var k';
    assert e in [e];
    tx', k' := st.EnsureElem(e, tx, k0, WithElements(start, done), es + done);
    assert (done + [e])[..|done|] == done;
    assert es + done + [e] == es + (done + [e]);
  }

  lemma LandEach(es: seq<Element>, start: Kernel)
    requires Land(es, start)
    ensures forall i :: 0 <= i < |es| ==> Land([es[i]], start)
  {
  }

  method WriteClusterIPElements(st: NftElementStorage, p: Plan, tx: seq<Op>,
                                ghost k0: Kernel, ghost start: Kernel, ghost es: seq<Element>)
    returns (tx': seq<Op>)
    requires Progress(st, k0, tx, start, es, []) && Land(p.ClusterIPElements(), start)
    modifies st
    ensures Progress(st, k0, tx', start, es, p.ClusterIPElements())
  {
    hide Progress, Land;
    ghost var want := p.ClusterIPElements();
    LandEach(want, start);
    assert Land([want[0]], start) && Land([want[1]], start);
    assert [] + [want[0]] == [want[0]];
    tx' := WriteElement(st, Element(ClusterIPs, [p.svc.clusterIP], Member), tx, k0, start, es, []);
    if p.HasInternal() {
      tx' := WriteElement(st, Element(ServiceIPs, p.AddrKey(p.svc.clusterIP), GotoChain(p.InternalPolicyChain())), tx',
                          k0, start, es, [want[0]]);
    } else {
      tx' := WriteElement(st, Element(NoEndpointServices, p.AddrKey(p.svc.clusterIP), p.RefusalValue()), tx', k0, start,
                          es, [want[0]]);
    }
    assert [want[0]] + [want[1]] == want;
  }

  method WriteToExternal(st: NftElementStorage, p: Plan, ip: string, tx: seq<Op>,
                         ghost k0: Kernel, ghost start: Kernel, ghost es: seq<Element>, ghost done: seq<Element>)
    returns (tx': seq<Op>)
    requires Progress(st, k0, tx, start, es, done) && Land(p.ToExternal(ip), start)
    modifies st
    ensures Progress(st, k0, tx', start, es, done + p.ToExternal(ip))
  {
    tx' := tx;
    assert done + [] == done;
    if p.hasEndpoints {
      tx' := WriteElement(st, Element(ServiceIPs, p.AddrKey(ip), GotoChain(p.ExternalChain())), tx, k0, start, es,
                          done);
    }
  }

  method WriteNoExternal(st: NftElementStorage, p: Plan, ip: string, tx: seq<Op>,
                         ghost k0: Kernel, ghost start: Kernel, ghost es: seq<Element>, ghost done: seq<Element>)
    returns (tx': seq<Op>)
    requires Progress(st, k0, tx, start, es, done) && Land(p.NoExternal(ip), start)
    modifies st
    ensures Progress(st, k0, tx', start, es, done + p.NoExternal(ip))
  {
    tx' := tx;
    assert done + [] == done;
    if !p.HasExternal() {
      tx' := WriteElement(st, Element(NoEndpointServices, p.AddrKey(ip), p.RefusalValue()), tx, k0, start, es, done);
    }
  }

  method WriteToFirewall(st: NftElementStorage, p: Plan, ip: string, tx: seq<Op>,
                         ghost k0: Kernel, ghost start: Kernel, ghost es: seq<Element>, ghost done: seq<Element>)
    returns (tx': seq<Op>)
    requires Progress(st, k0, tx, start, es, done) && Land(p.ToFirewall(ip), start)
    modifies st
    ensures Progress(st, k0, tx', start, es, done + p.ToFirewall(ip))
  {
    tx' := tx;
    assert done + [] == done;
    if p.UsesFirewallChain() {
      tx' := WriteElement(st, Element(FirewallIPs, p.AddrKey(ip), GotoChain(p.FirewallChain())), tx, k0, start, es,
                          done);
    }
  }

  method WriteExternalIPElements(st: NftElementStorage, p: Plan, tx: seq<Op>,
                                 ghost k0: Kernel, ghost start: Kernel, ghost es: seq<Element>,
                                 ghost done: seq<Element>)
    returns (tx': seq<Op>)
    requires Progress(st, k0, tx, start, es, done)
    requires forall i :: 0 <= i < |p.svc.externalIPs| ==>
               Land(p.ToExternal(p.svc.externalIPs[i]), start) && Land(p.NoExternal(p.svc.externalIPs[i]), start)
    modifies st
    ensures Progress(st, k0, tx', start, es, done + p.ExternalIPElements(|p.svc.externalIPs|))
  {
    hide Progress, Land, RuleCompiler.Plan.ToExternal, RuleCompiler.Plan.NoExternal;
    tx' := tx;
    assert done + p.ExternalIPElements(0) == done;
    for i := 0 to |p.svc.externalIPs|
      invariant Progress(st, k0, tx', start, es, done + p.ExternalIPElements(i))
    {
      var ip := p.svc.externalIPs[i];
      tx' := WriteToExternal(st, p, ip, tx', k0, start, es, done + p.ExternalIPElements(i));
      tx' := WriteNoExternal(st, p, ip, tx', k0, start, es, done + p.ExternalIPElements(i) + p.ToExternal(ip));
      assert done + p.ExternalIPElements(i) + p.ToExternal(ip) + p.NoExternal(ip) == done + p.ExternalIPElements(i + 1);
    }
  }

  method WriteLoadBalancerElements(st: NftElementStorage, p: Plan, tx: seq<Op>,
                                   ghost k0: Kernel, ghost start: Kernel, ghost es: seq<Element>,
                                   ghost done: seq<Element>)
    returns (tx': seq<Op>)
    requires Progress(st, k0, tx, start, es, done)
    requires forall i :: 0 <= i < |p.svc.loadBalancerVIPs| ==>
               Land(p.ToExternal(p.svc.loadBalancerVIPs[i]), start)
               && Land(p.ToFirewall(p.svc.loadBalancerVIPs[i]), start)
    modifies st
    ensures Progress(st, k0, tx', start, es, done + p.LoadBalancerElements(|p.svc.loadBalancerVIPs|))
  {
    hide Progress, Land, RuleCompiler.Plan.ToExternal, RuleCompiler.Plan.ToFirewall;
    tx' := tx;
    assert done + p.LoadBalancerElements(0) == done;
    for i := 0 to |p.svc.loadBalancerVIPs|
      invariant Progress(st, k0, tx', start, es, done + p.LoadBalancerElements(i))
    {
      var ip := p.svc.loadBalancerVIPs[i];
      tx' := WriteToExternal(st, p, ip, tx', k0, start, es, done + p.LoadBalancerElements(i));
      tx' := WriteToFirewall(st, p, ip, tx', k0, start, es, done + p.LoadBalancerElements(i) + p.ToExternal(ip));
      assert done + p.LoadBalancerElements(i) + p.ToExternal(ip) + p.ToFirewall(ip) ==
               done + p.LoadBalancerElements(i + 1);
    }
  }

  method WriteNoLoadBalancerElements(st: NftElementStorage, p: Plan, tx: seq<Op>,
                                     ghost k0: Kernel, ghost start: Kernel, ghost es: seq<Element>,
                                     ghost done: seq<Element>)
    returns (tx': seq<Op>)
    requires Progress(st, k0, tx, start, es, done)
    requires forall i :: 0 <= i < |p.svc.loadBalancerVIPs| ==> Land(p.NoExternal(p.svc.loadBalancerVIPs[i]), start)
    modifies st
    ensures Progress(st, k0, tx', start, es, done + p.NoLoadBalancerElements(|p.svc.loadBalancerVIPs|))
  {
    hide Progress, Land;
    tx' := tx;
    assert done + p.NoLoadBalancerElements(0) == done;
    for i := 0 to |p.svc.loadBalancerVIPs|
      invariant Progress(st, k0, tx', start, es, done + p.NoLoadBalancerElements(i))
    {
      tx' := WriteNoExternal(st, p, p.svc.loadBalancerVIPs[i], tx', k0, start, es, done + p.NoLoadBalancerElements(i));
      assert done + p.NoLoadBalancerElements(i) + p.NoExternal(p.svc.loadBalancerVIPs[i]) ==
               done + p.NoLoadBalancerElements(i + 1);
    }
  }

  method WriteNodePortElements(st: NftElementStorage, p: Plan, tx: seq<Op>,
                               ghost k0: Kernel, ghost start: Kernel, ghost es: seq<Element>, ghost done: seq<Element>)
    returns (tx': seq<Op>)
    requires Progress(st, k0, tx, start, es, done) && Land(p.NodePortElements(), start)
    modifies st
    ensures Progress(st, k0, tx', start, es, done + p.NodePortElements())
  {
    hide Progress;
    tx' := tx;
    ghost var now := done;
    assert done + [] == done;
    if p.svc.nodePort != 0 {
      if p.hasEndpoints {
        var e := Element(ServiceNodePorts, p.NodePortKey(), GotoChain(p.ExternalChain()));
        assert p.NodePortElements()[0] == e;
        tx' := WriteElement(st, e, tx', k0, start, es, now);
        now := now + [e];
      }
      if !p.HasExternal() {
        var e := Element(NoEndpointNodePorts, p.NodePortKey(), p.RefusalValue());
        assert p.NodePortElements()[|p.NodePortElements()| - 1] == e;
        tx' := WriteElement(st, e, tx', k0, start, es, now);
        now := now + [e];
      }
    }
    assert now == done + p.NodePortElements();
  }

  // ---- Where the elements lead ----

  lemma EarlyLands(p: Plan, k: Kernel, es: seq<Element>)
    requires AllLeadWithin(p, es) && EarlyChains(p) <= k.chains.Keys && Stock(RejectChain) in k.chains
    requires ALL_CONTAINERS <= k.containers
    requires forall e :: e in es ==> e.value != GotoChain(p.FirewallChain())
    ensures Land(es, k)
  {
    forall e | e in es
      ensures e.container in k.containers && SpaceFreeKey(e.key) && (e.value.GotoChain? ==> e.value.chain in k.chains)
    {
      EveryContainer(e.container);
      assert LeadsWithin(p, e);
    }
  }

  lemma LateLands(p: Plan, k: Kernel, es: seq<Element>)
    requires AllLeadWithin(p, es) && p.OwnChains() <= k.chains.Keys && Stock(RejectChain) in k.chains
    requires ALL_CONTAINERS <= k.containers
    ensures Land(es, k)
  {
    forall e | e in es
      ensures e.container in k.containers && SpaceFreeKey(e.key) && (e.value.GotoChain? ==> e.value.chain in k.chains)
    {
      EveryContainer(e.container);
      assert LeadsWithin(p, e);
    }
  }

  method WriteEarlyElements(st: NftElementStorage, p: Plan, tx: seq<Op>, ghost k0: Kernel, ghost start: Kernel,
                            ghost es: seq<Element>)
    returns (tx': seq<Op>)
    requires p.Consistent() && Progress(st, k0, tx, start, es, [])
    requires EarlyChains(p) <= start.chains.Keys && Stock(RejectChain) in start.chains
    requires ALL_CONTAINERS <= start.containers
    modifies st
    ensures Progress(st, k0, tx', start, es, p.ClusterIPElements() + p.ExternalIPElements(|p.svc.externalIPs|))
  {
    ClusterIPElementsLeadWithin(p);
    EarlyLands(p, start, p.ClusterIPElements());
    forall i | 0 <= i < |p.svc.externalIPs|
      ensures Land(p.ToExternal(p.svc.externalIPs[i]), start) && Land(p.NoExternal(p.svc.externalIPs[i]), start)
    {
      AddressLeadsWithin(p, p.svc.externalIPs[i]);
      EarlyLands(p, start, p.ToExternal(p.svc.externalIPs[i]));
      EarlyLands(p, start, p.NoExternal(p.svc.externalIPs[i]));
    }
    tx' := WriteClusterIPElements(st, p, tx, k0, start, es);
    tx' := WriteExternalIPElements(st, p, tx', k0, start, es, p.ClusterIPElements());
  }

  method WriteLateElements(st: NftElementStorage, p: Plan, tx: seq<Op>, ghost k0: Kernel, ghost start: Kernel,
                           ghost es: seq<Element>, ghost done: seq<Element>)
    returns (tx': seq<Op>)
    requires p.Consistent() && Progress(st, k0, tx, start, es, done)
    requires done == p.ClusterIPElements() + p.ExternalIPElements(|p.svc.externalIPs|)
    requires p.OwnChains() <= start.chains.Keys && Stock(RejectChain) in start.chains
    requires ALL_CONTAINERS <= start.containers
    modifies st
    ensures Progress(st, k0, tx', start, es, p.Elements())
  {
    var n := |p.svc.loadBalancerVIPs|;
    forall i | 0 <= i < n
      ensures Land(p.ToExternal(p.svc.loadBalancerVIPs[i]), start)
      ensures Land(p.NoExternal(p.svc.loadBalancerVIPs[i]), start)
      ensures Land(p.ToFirewall(p.svc.loadBalancerVIPs[i]), start)
    {
      AddressLeadsWithin(p, p.svc.loadBalancerVIPs[i]);
      LateLands(p, start, p.ToExternal(p.svc.loadBalancerVIPs[i]));
      LateLands(p, start, p.NoExternal(p.svc.loadBalancerVIPs[i]));
      LateLands(p, start, p.ToFirewall(p.svc.loadBalancerVIPs[i]));
    }
    NodePortElementsLeadWithin(p);
    LateLands(p, start, p.NodePortElements());
    tx' := WriteLoadBalancerElements(st, p, tx, k0, start, es, done);
    tx' := WriteNoLoadBalancerElements(st, p, tx', k0, start, es, done + p.LoadBalancerElements(n));
    tx' := WriteNodePortElements(st, p, tx', k0, start, es,
                                 done + p.LoadBalancerElements(n) + p.NoLoadBalancerElements(n));
  }

  // ---- The whole iteration ----

  /** What one service port's iteration makes of the kernel state. */
  ghost function Served(p: Plan, cfg: Config, sc: Option<ScoreMap>, skip: bool, k: Kernel): Kernel {
    var k1 := WithElements(k, p.Elements());
    if skip then k1
    else k1.(chains := k.chains + Want(p, sc, cfg), sets := WithSets(k.sets, p.OwnSets()))
  }

  lemma OwnIsEarlyAndFirewall(p: Plan)
    ensures p.OwnChains() == EarlyChains(p) + If(p.UsesFirewallChain(), p.FirewallChain())
  {
  }

  lemma BlankThenWant(chains: Chains, p: Plan, sc: Option<ScoreMap>, cfg: Config)
    ensures chains + Blank(p.OwnChains()) + Want(p, sc, cfg) == chains + Want(p, sc, cfg)
  {
  }

  method WriteService(st: NftElementStorage, p: Plan, all: seq<Endpoint>, cfg: Config, sc: Option<ScoreMap>, skip: bool,
                      tx: seq<Op>, active: set<Chain>, activeSets: set<SetName>,
                      ghost k0: Kernel, ghost k: Kernel, ghost es: seq<Element>)
    returns (tx': seq<Op>, active': set<Chain>, activeSets': set<SetName>, ghost k': Kernel)
    requires p.Consistent() && ReachableList(all, p.cluster, p.local)
    requires Run(k0, tx) == Some(k) && st.Writing(k.elements, es)
    requires Stock(RejectChain) in k.chains && Stock(MarkMasq) in k.chains && ALL_CONTAINERS <= k.containers
    requires forall c :: c in active ==> c.Stock? || c.spn != p.spn
    requires skip ==> p.OwnChains() <= k.chains.Keys
    modifies st
    ensures active' == active + p.OwnChains()
    ensures activeSets' == activeSets + p.OwnSets()
    ensures k' == Served(p, cfg, sc, skip, k)
    ensures Run(k0, tx') == Some(k')
    ensures st.Writing(k'.elements, es + p.Elements())
  {
    hide Puts, MidSync, Run, EpChains, EpSets, RuleCompiler.Plan.OwnChains, RuleCompiler.Plan.OwnSets,
      RuleCompiler.Plan.Elements, RuleCompiler.Plan.ClusterIPElements, RuleCompiler.Plan.ExternalIPElements,
      RuleCompiler.Plan.Consistent, ReachableList, Progress, EarlyChains;
    OwnIsEarlyAndFirewall(p);
    ghost var kA, kB, kC;
    tx', active', activeSets', kA := EnsureEarlyChains(p, all, skip, tx, active, activeSets, k0, k);
    StartProgress(st, k0, tx', kA, es);
    tx' := WriteEarlyElements(st, p, tx', k0, kA, es);
    ghost var done := p.ClusterIPElements() + p.ExternalIPElements(|p.svc.externalIPs|);
    tx', active', kB := EnsureFirewall(p, skip, tx', active', k0, k, done);
    tx' := WriteLateElements(st, p, tx', k0, kB, es, done);
    kC := WithElements(kB, p.Elements());
    k' := kC;
    if skip {
      return;
    }
    BlankThenWant(k.chains, p, sc, cfg);
    tx', k' := WriteServiceRules(p, cfg, sc, all, tx', k0, kC);
  }

  /** The firewall chain, created on top of the elements written so far. */
  method EnsureFirewall(p: Plan, skip: bool, tx: seq<Op>, active: set<Chain>, ghost k0: Kernel, ghost k: Kernel,
                        ghost done: seq<Element>)
    returns (tx': seq<Op>, active': set<Chain>, ghost k': Kernel)
    requires Run(k0, tx) == Some(WithElements(WithBlank(k, skip, EarlyChains(p)), done))
    requires p.FirewallChain() !in active
    ensures active' == active + If(p.UsesFirewallChain(), p.FirewallChain())
    ensures k' == WithBlank(k, skip, p.OwnChains())
    ensures Run(k0, tx') == Some(WithElements(k', done))
  {
    OwnIsEarlyAndFirewall(p);
    ghost var start, k1 := WithElements(k, done), WithElements(WithBlank(k, skip, EarlyChains(p)), done);
    assert k1 == WithBlank(start, skip, EarlyChains(p));
    tx', active', k1 := EnsureIf(p.UsesFirewallChain(), p.FirewallChain(), skip, tx, active, k0, start, EarlyChains(p),
                                 k1);
    k' := WithBlank(k, skip, p.OwnChains());
  }
}
