/** The parts of `syncProxyRules` around the service loop: table set-up, stale chains, stale sets. */
module SyncWriter {
  import opened ProxyTypes
  import opened Nftables
  import opened RuleCompiler
  import opened ElementStorage
  import opened RuleWriter
  import opened SyncState

  // ---- setupNFTables ----

  const STOCK_CHAINS: seq<StockChain> :=
    [FilterPrerouting, FilterInput, FilterForward, FilterOutput, FilterOutputPostDNAT,
     NatPrerouting, NatOutput, NatPostrouting,
     NodePortEndpointsCheck, ServiceEndpointsCheck, FirewallCheck, Services, Masquerading, ClusterIPsCheck,
     MarkMasq, RejectChain]

  function StockIndex(s: StockChain): (i: nat)
    ensures i < |STOCK_CHAINS| && STOCK_CHAINS[i] == s
  {
    match s
    case FilterPrerouting => 0
    case FilterInput => 1
    case FilterForward => 2
    case FilterOutput => 3
    case FilterOutputPostDNAT => 4
    case NatPrerouting => 5
    case NatOutput => 6
    case NatPostrouting => 7
    case NodePortEndpointsCheck => 8
    case ServiceEndpointsCheck => 9
    case FirewallCheck => 10
    case Services => 11
    case Masquerading => 12
    case ClusterIPsCheck => 13
    case MarkMasq => 14
    case RejectChain => 15
  }

  /** The first `n` stock chains have been emptied, everything else is as in `before`. */
  ghost predicate StockEmptied(chains: Chains, before: Chains, n: nat) {
    && (forall c :: c in chains <==> c in before || (c.Stock? && StockIndex(c.stock) < n))
    && (forall c :: c in chains ==> chains[c] == if c.Stock? && StockIndex(c.stock) < n then [] else before[c])
  }

  lemma StockIndexOf(i: nat)
    requires i < 16
    ensures |STOCK_CHAINS| == 16 && StockIndex(STOCK_CHAINS[i]) == i
  {
  }

  lemma StockEmptiedStep(chains: Chains, before: Chains, i: nat)
    requires i < |STOCK_CHAINS| && StockEmptied(chains, before, i)
    ensures StockEmptied(chains[Stock(STOCK_CHAINS[i]) := []], before, i + 1)
  {
    hide StockIndex;
    StockIndexOf(i);
    forall c: Chain | c.Stock?
      ensures StockIndex(c.stock) < i + 1 <==> StockIndex(c.stock) < i || c == Stock(STOCK_CHAINS[i])
    {
      assert STOCK_CHAINS[StockIndex(c.stock)] == c.stock;
    }
  }

  /** Create and empty all stock chains; the source interleaves this with adding their rules. */
  method CreateStockChains(tx: seq<Op>, ghost k0: Kernel, ghost k: Kernel) returns (tx': seq<Op>, ghost k': Kernel)
    requires Run(k0, tx) == Some(k)
    ensures k' == k.(chains := k'.chains) && StockEmptied(k'.chains, k.chains, |STOCK_CHAINS|)
    ensures Run(k0, tx') == Some(k')
  {
    hide Run;
    tx', k' := tx, k;
    assert StockEmptied(k.chains, k.chains, 0);
    hide StockEmptied;
    for i := 0 to |STOCK_CHAINS|
      invariant k' == k.(chains := k'.chains) && StockEmptied(k'.chains, k.chains, i)
      invariant Run(k0, tx') == Some(k')
    {
      StockEmptiedStep(k'.chains, k.chains, i);
      var ignored: set<Chain>;
      tx', ignored, k' := EnsureChain(Stock(STOCK_CHAINS[i]), tx', {}, false, k0, k');
    }
  }

  lemma RunAddContainer(k0: Kernel, tx: seq<Op>, k: Kernel, m: Container)
    requires Run(k0, tx) == Some(k)
    ensures Run(k0, tx + [AddContainer(m)]) == Some(k.(containers := k.containers + {m}))
  {
    RunSnoc(k0, tx, AddContainer(m));
  }

  lemma AllSix(cs: set<Container>)
    requires forall i :: 0 <= i < |SIX_CONTAINERS| ==> SIX_CONTAINERS[i] in cs
    ensures cs == ALL_CONTAINERS
  {
    assert SIX_CONTAINERS[0] in cs && SIX_CONTAINERS[1] in cs && SIX_CONTAINERS[2] in cs;
    assert SIX_CONTAINERS[3] in cs && SIX_CONTAINERS[4] in cs && SIX_CONTAINERS[5] in cs;
    forall m: Container
      ensures m in cs && m in ALL_CONTAINERS
    {
      EveryContainer(m);
    }
  }

  /** The six containers exist. */
  method CreateContainers(tx: seq<Op>, ghost k0: Kernel, ghost k: Kernel) returns (tx': seq<Op>, ghost k': Kernel)
    requires Run(k0, tx) == Some(k)
    ensures k' == k.(containers := ALL_CONTAINERS)
    ensures Run(k0, tx') == Some(k.(containers := ALL_CONTAINERS))
  {
    hide Run;
    tx', k' := tx, k;
    for i := 0 to |SIX_CONTAINERS|
      invariant k' == k.(containers := k'.containers)
      invariant forall j :: 0 <= j < i ==> SIX_CONTAINERS[j] in k'.containers
      invariant Run(k0, tx') == Some(k')
    {
      var m := SIX_CONTAINERS[i];
      RunAddContainer(k0, tx', k', m);
      tx' := tx' + [AddContainer(m)];
      k' := k'.(containers := k'.containers + {m});
    }
    AllSix(k'.containers);
  }

  ghost function WithNodePortSet(sets: map<SetName, set<string>>, cfg: Config): map<SetName, set<string>> {
    if cfg.nodePortMatchAll then sets - {NodePortIPs} else sets[NodePortIPs := NodePortMembers(cfg)]
  }

  function MembersUpTo(cfg: Config, n: nat): set<string>
    requires n <= |cfg.nodeAddresses|
  {
    set a | a in cfg.nodeAddresses[..n] && !a.loopback :: a.ip
  }

  /** Fill in `nodeport-ips`, or make sure it does not exist. */
  method SetUpNodePortSet(cfg: Config, tx: seq<Op>, ghost k0: Kernel, ghost k: Kernel)
    returns (tx': seq<Op>, ghost k': Kernel)
    requires Run(k0, tx) == Some(k) && !SetReferenced(k, NodePortIPs)
    ensures k' == k.(sets := WithNodePortSet(k.sets, cfg))
    ensures Run(k0, tx') == Some(k.(sets := WithNodePortSet(k.sets, cfg)))
  {
    RunSnoc(k0, tx, AddSet(NodePortIPs));
    tx' := tx + [AddSet(NodePortIPs)];
    k' := k.(sets := if NodePortIPs in k.sets then k.sets else k.sets[NodePortIPs := {}]);
    if cfg.nodePortMatchAll {
      RunSnoc(k0, tx', DeleteSet(NodePortIPs));
      tx' := tx' + [DeleteSet(NodePortIPs)];
      assert k'.sets - {NodePortIPs} == k.sets - {NodePortIPs};
      k' := k.(sets := k.sets - {NodePortIPs});
    } else {
      RunSnoc(k0, tx', FlushSet(NodePortIPs));
      tx' := tx' + [FlushSet(NodePortIPs)];
      assert k'.sets[NodePortIPs := {}] == k.sets[NodePortIPs := {}];
      k' := k.(sets := k.sets[NodePortIPs := {}]);
      tx', k' := FillNodePortSet(cfg, tx', k0, k');
      assert k.sets[NodePortIPs := {}][NodePortIPs := NodePortMembers(cfg)] ==
               k.sets[NodePortIPs := NodePortMembers(cfg)];
    }
  }

  lemma RunAddSetElement(k0: Kernel, tx: seq<Op>, k: Kernel, n: SetName, ip: string)
    requires Run(k0, tx) == Some(k) && n in k.sets
    ensures Run(k0, tx + [AddSetElement(n, ip)]) == Some(k.(sets := k.sets[n := k.sets[n] + {ip}]))
  {
    RunSnoc(k0, tx, AddSetElement(n, ip));
  }

  lemma MembersSnoc(cfg: Config, i: nat)
    requires i < |cfg.nodeAddresses|
    ensures MembersUpTo(cfg, i + 1) ==
            MembersUpTo(cfg, i) + (if cfg.nodeAddresses[i].loopback then {} else {cfg.nodeAddresses[i].ip})
  {
    assert cfg.nodeAddresses[..i + 1] == cfg.nodeAddresses[..i] + [cfg.nodeAddresses[i]];
  }

  lemma MembersAll(cfg: Config)
    ensures MembersUpTo(cfg, 0) == {} && MembersUpTo(cfg, |cfg.nodeAddresses|) == NodePortMembers(cfg)
  {
    assert cfg.nodeAddresses[..|cfg.nodeAddresses|] == cfg.nodeAddresses;
  }

  method FillNodePortSet(cfg: Config, tx: seq<Op>, ghost k0: Kernel, ghost k: Kernel)
    returns (tx': seq<Op>, ghost k': Kernel)
    requires Run(k0, tx) == Some(k) && NodePortIPs in k.sets && k.sets[NodePortIPs] == {}
    ensures k' == k.(sets := k.sets[NodePortIPs := NodePortMembers(cfg)])
    ensures Run(k0, tx') == Some(k.(sets := k.sets[NodePortIPs := NodePortMembers(cfg)]))
  {
    hide Run, MembersUpTo, NodePortMembers;
    tx', k' := tx, k;
    MembersAll(cfg);
    assert k.sets[NodePortIPs := {}] == k.sets;
    for i := 0 to |cfg.nodeAddresses|
      invariant k' == k.(sets := k.sets[NodePortIPs := MembersUpTo(cfg, i)])
      invariant Run(k0, tx') == Some(k')
    {
      var a := cfg.nodeAddresses[i];
      MembersSnoc(cfg, i);
      if a.loopback {
        assert MembersUpTo(cfg, i) + {} == MembersUpTo(cfg, i);
      } else {
        RunAddSetElement(k0, tx', k', NodePortIPs, a.ip);
        tx' := tx' + [AddSetElement(NodePortIPs, a.ip)];
        assert k'.sets[NodePortIPs := MembersUpTo(cfg, i + 1)] == k.sets[NodePortIPs := MembersUpTo(cfg, i + 1)];
        k' := k.(sets := k.sets[NodePortIPs := MembersUpTo(cfg, i + 1)]);
      }
    }
  }

  /** The first `n` stock chains hold their rules, the other stock chains are still empty. */
  ghost predicate StockWritten(chains: Chains, before: Chains, cfg: Config, n: nat) {
    && (forall s: StockChain ::
          Stock(s) in chains && chains[Stock(s)] == if StockIndex(s) < n then StockRules(cfg, s) else [])
    && (forall c: Chain :: !c.Stock? ==> (c in chains <==> c in before))
    && (forall c: Chain :: !c.Stock? && c in chains ==> chains[c] == before[c])
  }

  lemma StockRulesResolve(cfg: Config, s: StockChain, k: Kernel, i: nat)
    requires i < |StockRules(cfg, s)| && k.containers == ALL_CONTAINERS
    requires forall t: StockChain :: Stock(t) in k.chains
    requires !cfg.nodePortMatchAll ==> NodePortIPs in k.sets
    ensures RuleResolves(k, StockRules(cfg, s)[i])
  {
    StockRulesReferences(cfg, s, i);
    forall m | RuleUsesContainer(StockRules(cfg, s)[i], m)
      ensures m in k.containers
    {
      EveryContainer(m);
    }
    forall c | RuleTargets(StockRules(cfg, s)[i], c)
      ensures c in k.chains
    {
      assert c == Stock(c.stock);
    }
  }

  method WriteStockChain(cfg: Config, s: StockChain, tx: seq<Op>, ghost k0: Kernel, ghost k: Kernel)
    returns (tx': seq<Op>, ghost k': Kernel)
    requires Run(k0, tx) == Some(k) && k.containers == ALL_CONTAINERS
    requires forall t: StockChain :: Stock(t) in k.chains
    requires k.chains[Stock(s)] == []
    requires !cfg.nodePortMatchAll ==> NodePortIPs in k.sets
    ensures k' == k.(chains := k.chains[Stock(s) := StockRules(cfg, s)])
    ensures Run(k0, tx') == Some(k.(chains := k.chains[Stock(s) := StockRules(cfg, s)]))
  {
    hide Run, StockRules;
    tx', k' := tx, k;
    var rules := StockRules(cfg, s);
    for i := 0 to |rules|
      invariant k' == Append(k, Stock(s), rules[..i])
      invariant Run(k0, tx') == Some(k')
    {
      StockRulesResolve(cfg, s, k', i);
      AppendAppend(k, Stock(s), rules[..i], [rules[i]]);
      assert rules[..i + 1] == rules[..i] + [rules[i]];
      tx', k' := WriteRule(Stock(s), rules[i], tx', k0, k');
    }
    assert rules[..|rules|] == rules;
    assert k.chains[Stock(s)] + rules == rules;
    if rules == [] {
      assert k.chains[Stock(s) := []] == k.chains;
    }
  }

  lemma StockWrittenStep(chains: Chains, before: Chains, cfg: Config, i: nat)
    requires i < |STOCK_CHAINS| && StockWritten(chains, before, cfg, i)
    ensures Stock(STOCK_CHAINS[i]) in chains && chains[Stock(STOCK_CHAINS[i])] == []
    ensures StockWritten(chains[Stock(STOCK_CHAINS[i]) := StockRules(cfg, STOCK_CHAINS[i])], before, cfg, i + 1)
  {
    hide StockIndex, StockRules;
    StockIndexOf(i);
    forall s: StockChain
      ensures StockIndex(s) < i + 1 <==> StockIndex(s) < i || s == STOCK_CHAINS[i]
    {
      assert STOCK_CHAINS[StockIndex(s)] == s;
    }
  }

  lemma EmptiedThenWritten(chains: Chains, before: Chains, cfg: Config)
    requires StockEmptied(chains, before, |STOCK_CHAINS|)
    ensures StockWritten(chains, before, cfg, 0)
  {
    hide StockIndex;
  }

  lemma AllStockWritten(chains: Chains, before: Chains, cfg: Config)
    requires StockWritten(chains, before, cfg, |STOCK_CHAINS|)
    ensures forall s: StockChain :: Stock(s) in chains && chains[Stock(s)] == StockRules(cfg, s)
  {
    hide StockIndex, StockRules;
  }

  method WriteStockRules(cfg: Config, tx: seq<Op>, ghost k0: Kernel, ghost k: Kernel, ghost before: Chains)
    returns (tx': seq<Op>, ghost k': Kernel)
    requires Run(k0, tx) == Some(k) && k.containers == ALL_CONTAINERS && StockWritten(k.chains, before, cfg, 0)
    requires !cfg.nodePortMatchAll ==> NodePortIPs in k.sets
    ensures k' == k.(chains := k'.chains) && StockWritten(k'.chains, before, cfg, |STOCK_CHAINS|)
    ensures Run(k0, tx') == Some(k')
  {
    hide Run, StockRules, StockIndex;
    tx', k' := tx, k;
    for i := 0 to |STOCK_CHAINS|
      invariant k' == k.(chains := k'.chains) && StockWritten(k'.chains, before, cfg, i)
      invariant Run(k0, tx') == Some(k')
    {
      StockWrittenStep(k'.chains, before, cfg, i);
      tx', k' := WriteStockChain(cfg, STOCK_CHAINS[i], tx', k0, k');
    }
  }

  /** What `setupNFTables` makes of a kernel state: fresh stock chains and containers, service chains untouched. */
  ghost predicate SetUp(k: Kernel, before: Kernel, cfg: Config) {
    && StockInstalled(k, cfg)
    && (forall c: Chain :: !c.Stock? ==> (c in k.chains <==> c in before.chains))
    && (forall c: Chain :: !c.Stock? && c in k.chains ==> k.chains[c] == before.chains[c])
    && k.elements == map[]
    && k.sets == WithNodePortSet(before.sets, cfg)
  }

  lemma NodePortSetFree(k: Kernel, before: Kernel)
    requires StockEmptied(k.chains, before.chains, |STOCK_CHAINS|) && ServiceRulesPlain(before)
    ensures !SetReferenced(k, NodePortIPs)
  {
    forall d, i | d in k.chains && 0 <= i < |k.chains[d]|
      ensures !RuleUsesSet(k.chains[d][i], NodePortIPs)
    {
      if !d.Stock? {
        assert k.chains[d] == before.chains[d];
      }
    }
  }

  const BASE_CHAINS: seq<StockChain> :=
    [FilterPrerouting, FilterInput, FilterForward, FilterOutput, FilterOutputPostDNAT, NatPrerouting, NatOutput,
     NatPostrouting]

  /** Adding a chain nothing refers to and deleting it again leaves the table without it. */
  lemma RunRecreate(k0: Kernel, tx: seq<Op>, k: Kernel, c: Chain)
    requires Run(k0, tx) == Some(k) && !ChainReferenced(k, c)
    ensures Run(k0, tx + [AddChain(c)] + [DeleteChain(c)]) == Some(k.(chains := k.chains - {c}))
    ensures forall d :: !ChainReferenced(k, d) ==> !ChainReferenced(k.(chains := k.chains - {c}), d)
  {
    RunSnoc(k0, tx, AddChain(c));
    RunSnoc(k0, tx + [AddChain(c)], DeleteChain(c));
    var k1 := if c in k.chains then k else k.(chains := k.chains[c := []]);
    assert k1.chains - {c} == k.chains - {c};
    assert !ChainReferenced(k1, c) by {
      forall d, i | d in k1.chains && 0 <= i < |k1.chains[d]|
        ensures !RuleTargets(k1.chains[d][i], c)
      {
        assert d in k.chains && k1.chains[d] == k.chains[d];
      }
    }
  }

  /** The first set-up of a process deletes every base chain first, so that its properties can be set anew. */
  method DropBaseChains(tx: seq<Op>, ghost k0: Kernel, ghost k: Kernel) returns (tx': seq<Op>, ghost k': Kernel)
    requires Run(k0, tx) == Some(k) && BaseUnreferenced(k)
    ensures k' == k.(chains := k'.chains)
    ensures forall c :: c in k'.chains <==> c in k.chains && !(c.Stock? && IsBase(c.stock))
    ensures forall c :: c in k'.chains ==> k'.chains[c] == k.chains[c]
    ensures Run(k0, tx') == Some(k')
  {
    hide Run, ChainReferenced;
    tx', k' := tx, k;
    for i := 0 to |BASE_CHAINS|
      invariant k' == k.(chains := k'.chains) && BaseUnreferenced(k')
      invariant forall c :: c in k'.chains <==> c in k.chains && !(c.Stock? && c.stock in BASE_CHAINS[..i])
      invariant forall c :: c in k'.chains ==> k'.chains[c] == k.chains[c]
      invariant Run(k0, tx') == Some(k')
    {
      var c := Stock(BASE_CHAINS[i]);
      BasesListed(BASE_CHAINS[i]);
      assert BASE_CHAINS[i] in BASE_CHAINS;
      RunRecreate(k0, tx', k', c);
      assert BASE_CHAINS[..i + 1] == BASE_CHAINS[..i] + [BASE_CHAINS[i]];
      tx' := tx' + [AddChain(c)] + [DeleteChain(c)];
      k' := k'.(chains := k'.chains - {c});
    }
    assert BASE_CHAINS[..|BASE_CHAINS|] == BASE_CHAINS;
    forall s: StockChain
      ensures s in BASE_CHAINS <==> IsBase(s)
    {
      BasesListed(s);
    }
  }

  lemma BasesListed(s: StockChain)
    ensures s in BASE_CHAINS <==> IsBase(s)
  {
    var all := BASE_CHAINS;
    assert all[0] in all && all[1] in all && all[2] in all && all[3] in all;
    assert all[4] in all && all[5] in all && all[6] in all && all[7] in all;
  }

  lemma SetUpSince(k: Kernel, k1: Kernel, before: Kernel, cfg: Config)
    requires SetUp(k, k1, cfg) && k1.sets == before.sets
    requires forall c: Chain :: !c.Stock? ==> (c in k1.chains <==> c in before.chains)
    requires forall c: Chain :: !c.Stock? && c in k1.chains ==> k1.chains[c] == before.chains[c]
    ensures SetUp(k, before, cfg)
  {
    hide StockInstalled;
  }

  /** `setupNFTables`, with the one-off part done when `flushed` is not set. */
  method SetupNFTables(storage: NftElementStorage, flushed: bool, cfg: Config, tx: seq<Op>, ghost k0: Kernel,
                       ghost k: Kernel)
    returns (tx': seq<Op>, ghost k': Kernel)
    requires Run(k0, tx) == Some(k) && ServiceRulesPlain(k) && BaseUnreferenced(k)
    modifies storage
    ensures SetUp(k', k, cfg)
    ensures Run(k0, tx') == Some(k')
    ensures storage.InSync(map[])
  {
    hide Run, StockIndex, StockRules, ChainReferenced, SetUp, RuleUsesSet;
    ghost var k1 := k;
    tx' := tx;
    if !flushed {
      tx', k1 := DropBaseChains(tx, k0, k);
    }
    tx', k' := SetUpTable(storage, cfg, tx', k0, k1);
    SetUpSince(k', k1, k, cfg);
  }

  method SetUpTable(storage: NftElementStorage, cfg: Config, tx: seq<Op>, ghost k0: Kernel, ghost k: Kernel)
    returns (tx': seq<Op>, ghost k': Kernel)
    requires Run(k0, tx) == Some(k) && ServiceRulesPlain(k)
    modifies storage
    ensures SetUp(k', k, cfg)
    ensures Run(k0, tx') == Some(k')
    ensures storage.InSync(map[])
  {
    hide Run, StockIndex, StockRules;
    ghost var kA;
    tx', kA := CreateStockChains(tx, k0, k);
    NodePortSetFree(kA, k);
    EmptiedThenWritten(kA.chains, k.chains, cfg);
    hide StockEmptied, StockWritten;
    tx', k' := CreateContainers(tx', k0, kA);
    tx', k' := SetUpNodePortSet(cfg, tx', k0, k');
    tx', k' := WriteStockRules(cfg, tx', k0, k', k.chains);
    AllStockWritten(k'.chains, k.chains, cfg);
    ServiceChainsKept(k'.chains, k.chains, cfg);
    tx', k' := storage.Reset(tx', k0, k');
  }

  lemma ServiceChainsKept(chains: Chains, before: Chains, cfg: Config)
    requires StockWritten(chains, before, cfg, |STOCK_CHAINS|)
    ensures forall c: Chain :: !c.Stock? ==> (c in chains <==> c in before)
    ensures forall c: Chain :: !c.Stock? && c in chains ==> chains[c] == before[c]
  {
  }

  // ---- Stale chains and sets ----

  /** The existing service chains nothing uses any more. */
  ghost function StaleOf(existing: set<Chain>, active: set<Chain>): set<Chain> {
    set c | c in existing && !c.Stock? && c !in active
  }

  /** Flush what became stale and note when; forget chains that are active again. */
  method FlushStaleChains(existing: set<Chain>, active: set<Chain>, staleChains: map<Chain, int>, now: int,
                          tx: seq<Op>, ghost k0: Kernel, ghost k: Kernel)
    returns (tx': seq<Op>, stale': map<Chain, int>, ghost k': Kernel)
    requires Run(k0, tx) == Some(k) && StaleOf(existing, active) <= k.chains.Keys
    requires staleChains.Keys <= existing && forall c :: c in staleChains ==> !c.Stock?
    ensures k' == k.(chains := k.chains + Blank(StaleOf(existing, active)))
    ensures stale' == map c | c in StaleOf(existing, active) :: now
    ensures Run(k0, tx') == Some(k')
  {
    hide Run;
    tx', stale', k' := tx, staleChains, k;
    var rest := existing;
    ghost var seen: set<Chain> := {};
    assert k.chains + Blank({}) == k.chains;
    while rest != {}
      invariant rest + seen == existing && rest !! seen
      invariant k' == k.(chains := k.chains + Blank(StaleOf(seen, active)))
      invariant forall c :: c in stale' <==> c in StaleOf(seen, active) || (c in staleChains && c in rest)
      invariant forall c :: c in StaleOf(seen, active) ==> stale'[c] == now
      invariant Run(k0, tx') == Some(k')
    {
      var c :| c in rest;
      rest := rest - {c};
      if !c.Stock? {
        if c !in active {
          assert StaleOf(seen + {c}, active) == StaleOf(seen, active) + {c};
          BlankSnoc(k.chains, StaleOf(seen, active), c);
          RunFlush(k0, tx', k', c);
          tx' := tx' + [FlushChain(c)];
          k' := k'.(chains := k'.chains[c := []]);
          stale' := stale'[c := now];
        } else {
          assert StaleOf(seen + {c}, active) == StaleOf(seen, active);
          stale' := stale' - {c};
        }
      } else {
        assert StaleOf(seen + {c}, active) == StaleOf(seen, active);
      }
      seen := seen + {c};
    }
    assert seen == existing;
  }

  lemma RunFlush(k0: Kernel, tx: seq<Op>, k: Kernel, c: Chain)
    requires Run(k0, tx) == Some(k) && c in k.chains
    ensures Run(k0, tx + [FlushChain(c)]) == Some(k.(chains := k.chains[c := []]))
  {
    RunSnoc(k0, tx, FlushChain(c));
  }

  ghost function StaleSetsOf(existing: set<SetName>, active: set<SetName>): set<SetName> {
    set s | s in existing && s.AffinitySet? && s !in active
  }

  /** Affinity sets can be deleted at once: nothing refers to a set that is not active. */
  method DeleteStaleSets(existing: set<SetName>, active: set<SetName>, tx: seq<Op>, ghost k0: Kernel, ghost k: Kernel)
    returns (tx': seq<Op>, ghost k': Kernel)
    requires Run(k0, tx) == Some(k) && StaleSetsOf(existing, active) <= k.sets.Keys
    requires forall s :: s in StaleSetsOf(existing, active) ==> !SetReferenced(k, s)
    ensures k' == k.(sets := k.sets - StaleSetsOf(existing, active))
    ensures Run(k0, tx') == Some(k.(sets := k.sets - StaleSetsOf(existing, active)))
  {
    hide Run, SetReferenced;
    tx', k' := tx, k;
    var rest := existing;
    ghost var seen: set<SetName> := {};
    assert k.sets - {} == k.sets;
    while rest != {}
      invariant rest + seen == existing && rest !! seen
      invariant k' == k.(sets := k.sets - StaleSetsOf(seen, active))
      invariant Run(k0, tx') == Some(k')
    {
      var s :| s in rest;
      rest := rest - {s};
      if s.AffinitySet? && s !in active {
        assert s in StaleSetsOf(existing, active);
        assert StaleSetsOf(seen + {s}, active) == StaleSetsOf(seen, active) + {s};
        assert k.sets - StaleSetsOf(seen, active) - {s} == k.sets - StaleSetsOf(seen + {s}, active);
        RunDeleteSet(k0, tx', k', s, k);
        tx' := tx' + [DeleteSet(s)];
        k' := k'.(sets := k'.sets - {s});
      } else {
        assert StaleSetsOf(seen + {s}, active) == StaleSetsOf(seen, active);
      }
      seen := seen + {s};
    }
    assert seen == existing;
  }

  lemma RunNothing(k: Kernel)
    ensures Run(k, []) == Some(k)
  {
  }

  lemma RunDeleteSet(k0: Kernel, tx: seq<Op>, k: Kernel, s: SetName, same: Kernel)
    requires Run(k0, tx) == Some(k) && s in k.sets && same.chains == k.chains && !SetReferenced(same, s)
    ensures Run(k0, tx + [DeleteSet(s)]) == Some(k.(sets := k.sets - {s}))
  {
    RunSnoc(k0, tx, DeleteSet(s));
  }

  /** The chains noted stale more than a second ago, deleted in a transaction of their own. */
  method DeleteOldChains(staleChains: map<Chain, int>, now: int, second: int, ghost k: Kernel)
    returns (tx: seq<Op>, stale': map<Chain, int>, ghost k': Kernel)
    requires forall c :: c in staleChains ==> c in k.chains && !ChainReferenced(k, c)
    ensures stale' == map c | c in staleChains && staleChains[c] >= now - second :: staleChains[c]
    ensures k' == k.(chains := k.chains - (staleChains.Keys - stale'.Keys))
    ensures Run(k, tx) == Some(k')
  {
    hide Run, ChainReferenced;
    RunNothing(k);
    tx, stale', k' := [], staleChains, k;
    var rest := staleChains.Keys;
    assert k.chains - (staleChains.Keys - staleChains.Keys) == k.chains;
    while rest != {}
      invariant rest <= stale'.Keys <= staleChains.Keys
      invariant forall c :: c in stale' ==> stale'[c] == staleChains[c]
      invariant forall c :: c in staleChains && c !in rest ==> (c in stale' <==> staleChains[c] >= now - second)
      invariant k' == k.(chains := k.chains - (staleChains.Keys - stale'.Keys))
      invariant Run(k, tx) == Some(k')
    {
      var c :| c in rest;
      rest := rest - {c};
      if staleChains[c] < now - second {
        RunDeleteChain(k, tx, k', c);
        tx := tx + [DeleteChain(c)];
        assert k'.chains - {c} == k.chains - (staleChains.Keys - (stale' - {c}).Keys);
        k' := k'.(chains := k'.chains - {c});
        stale' := stale' - {c};
      }
    }
  }

  /** A chain unreferenced in `k` is unreferenced when fewer chains exist. */
  lemma RunDeleteChain(k: Kernel, tx: seq<Op>, k1: Kernel, c: Chain)
    requires Run(k, tx) == Some(k1) && c in k1.chains && !ChainReferenced(k, c)
    requires k1.chains.Keys <= k.chains.Keys && k1.elements == k.elements
    requires forall d :: d in k1.chains ==> k1.chains[d] == k.chains[d]
    ensures Run(k, tx + [DeleteChain(c)]) == Some(k1.(chains := k1.chains - {c}))
  {
    RunSnoc(k, tx, DeleteChain(c));
    assert !ChainReferenced(k1, c) by {
      forall d, i | d in k1.chains && 0 <= i < |k1.chains[d]|
        ensures !RuleTargets(k1.chains[d][i], c)
      {
        assert k1.chains[d] == k.chains[d];
      }
    }
  }
}
