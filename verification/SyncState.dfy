/**
 What it means for a kernel state to be the one a set of service ports asks for, and how the
 service loop of a sync, partial or full, gets there.
 */
module SyncState {
  import opened ProxyTypes
  import opened Nftables
  import opened RuleCompiler
  import opened ElementStorage
  import opened RuleWriter
  import opened ServiceWriter

  type Plans = map<ServicePortName, Plan>

  /** The scores each service port's rules were last written with. */
  type UsedScores = map<ServicePortName, Option<ScoreMap>>

  ghost predicate PlansOK(plans: Plans) {
    forall n :: n in plans ==> plans[n].spn == n && plans[n].Consistent()
  }

  ghost predicate Active(plans: Plans, c: Chain) {
    !c.Stock? && c.spn in plans && c in plans[c.spn].OwnChains()
  }

  ghost predicate ActiveSet(plans: Plans, s: SetName) {
    s.AffinitySet? && s.spn in plans && s in plans[s.spn].OwnSets()
  }

  // ---- The desired state ----

  ghost predicate StockInstalled(k: Kernel, cfg: Config) {
    && (forall s: StockChain :: Stock(s) in k.chains && k.chains[Stock(s)] == StockRules(cfg, s))
    && k.containers == ALL_CONTAINERS
  }

  function NodePortMembers(cfg: Config): set<string> {
    set a | a in cfg.nodeAddresses && !a.loopback :: a.ip
  }

  ghost predicate NodePortSetInstalled(k: Kernel, cfg: Config) {
    if cfg.nodePortMatchAll then NodePortIPs !in k.sets
    else NodePortIPs in k.sets && k.sets[NodePortIPs] == NodePortMembers(cfg)
  }

  /** Active chains hold what their service port wants, every other service chain is empty. */
  ghost predicate ChainsInstalled(k: Kernel, plans: Plans, used: UsedScores, cfg: Config) {
    && plans.Keys <= used.Keys
    && (forall c :: Active(plans, c) ==> c in k.chains && k.chains[c] == plans[c.spn].WantRules(c, used[c.spn], cfg))
    && (forall c :: c in k.chains && !c.Stock? && !Active(plans, c) ==> k.chains[c] == [])
  }

  ghost predicate SetsInstalled(k: Kernel, plans: Plans) {
    forall s: SetName :: s.AffinitySet? ==> (s in k.sets <==> ActiveSet(plans, s))
  }

  /** The elements of the service ports, in the order the loop visited them. */
  ghost function AllElements(plans: Plans, order: seq<ServicePortName>): seq<Element> {
    if order == [] then []
    else AllElements(plans, order[..|order| - 1])
         + (if order[|order| - 1] in plans then plans[order[|order| - 1]].Elements() else [])
  }

  ghost predicate Visits(order: seq<ServicePortName>, plans: Plans) {
    && (forall n :: n in order <==> n in plans)
    && (forall i, j :: 0 <= i < j < |order| ==> order[i] != order[j])
  }

  /** The kernel state is exactly what the plans, the scores used and a visiting order determine. */
  ghost predicate Installed(k: Kernel, plans: Plans, used: UsedScores, order: seq<ServicePortName>, cfg: Config) {
    && PlansOK(plans)
    && StockInstalled(k, cfg)
    && NodePortSetInstalled(k, cfg)
    && ChainsInstalled(k, plans, used, cfg)
    && SetsInstalled(k, plans)
    && Visits(order, plans)
    && k.elements == Puts(map[], AllElements(plans, order))
  }

  /** The part of a kernel state that packets can reach. */
  datatype Reachable = Reachable(chains: Chains, elements: Elements, sets: set<SetName>, nodePortIPs: set<string>)

  ghost function ReachablePart(k: Kernel, plans: Plans): Reachable {
    Reachable(map c | c in k.chains && (c.Stock? || Active(plans, c)) :: k.chains[c],
              k.elements,
              k.sets.Keys,
              if NodePortIPs in k.sets then k.sets[NodePortIPs] else {})
  }

  /** Two installed states agree on everything packets can reach, whatever either grew out of. */
  lemma InstalledDetermines(a: Kernel, b: Kernel, plans: Plans, used: UsedScores, order: seq<ServicePortName>,
                            cfg: Config)
    requires Installed(a, plans, used, order, cfg) && Installed(b, plans, used, order, cfg)
    ensures ReachablePart(a, plans) == ReachablePart(b, plans)
  {
    var ra, rb := ReachablePart(a, plans), ReachablePart(b, plans);
    forall c
      ensures c in ra.chains <==> c in rb.chains
      ensures c in ra.chains ==> ra.chains[c] == rb.chains[c]
    {
      if c.Stock? {
        assert a.chains[Stock(c.stock)] == b.chains[Stock(c.stock)];
      } else if Active(plans, c) {
        assert c in a.chains && c in b.chains;
      }
    }
    forall s: SetName
      ensures s in a.sets <==> s in b.sets
    {
      if s.AffinitySet? {
        assert s in a.sets <==> ActiveSet(plans, s);
        assert s in b.sets <==> ActiveSet(plans, s);
      }
    }
    assert a.sets.Keys == b.sets.Keys;
  }

  // ---- References in an installed state ----

  lemma StockRulesReferences(cfg: Config, s: StockChain, i: nat)
    requires i < |StockRules(cfg, s)|
    ensures forall c :: RuleTargets(StockRules(cfg, s)[i], c) ==> c.Stock?
    ensures forall n :: RuleUsesSet(StockRules(cfg, s)[i], n) ==> n == NodePortIPs && !cfg.nodePortMatchAll
  {
  }

  ghost predicate LeadsToActive(plans: Plans, v: ElementValue) {
    v.GotoChain? ==> Active(plans, v.chain) || v.chain == Stock(RejectChain)
  }

  lemma ElementsOfOne(plans: Plans, n: ServicePortName)
    requires PlansOK(plans) && n in plans
    ensures forall e :: e in plans[n].Elements() ==> LeadsToActive(plans, e.value)
  {
    hide RuleCompiler.Plan.Elements;
    ElementsLeadWithin(plans[n]);
    OwnedAreNamed(plans[n]);
    forall e | e in plans[n].Elements()
      ensures LeadsToActive(plans, e.value)
    {
      assert LeadsWithin(plans[n], e);
    }
  }

  lemma {:induction false} ElementsOfAll(plans: Plans, order: seq<ServicePortName>)
    requires PlansOK(plans)
    ensures forall e :: e in AllElements(plans, order) ==> LeadsToActive(plans, e.value)
  {
    hide RuleCompiler.Plan.Elements, LeadsToActive;
    if order != [] {
      ElementsOfAll(plans, order[..|order| - 1]);
      if order[|order| - 1] in plans {
        ElementsOfOne(plans, order[|order| - 1]);
      }
    }
  }

  /** The elements only lead to active chains and the reject chain. */
  lemma ElementsLeadToActive(plans: Plans, order: seq<ServicePortName>, s: Slot)
    requires PlansOK(plans) && s in Puts(map[], AllElements(plans, order))
    ensures LeadsToActive(plans, Puts(map[], AllElements(plans, order))[s])
  {
    hide AllElements, LeadsToActive;
    var es := AllElements(plans, order);
    ElementsOfAll(plans, order);
    PutsAt(map[], es, s);
    PutsFrom(map[], es, s);
  }

  /** A slot written to holds the value of one of the writes. */
  lemma {:induction false} PutsFrom(held: Elements, es: seq<Element>, s: Slot)
    requires s in Written(es)
    ensures s in Puts(held, es)
    ensures exists e :: e in es && SlotOf(e) == s && Puts(held, es)[s] == e.value
  {
    var init, last := es[..|es| - 1], es[|es| - 1];
    assert es == init + [last];
    if SlotOf(last) == s {
      assert last in es;
    } else {
      assert s in Written(init);
      PutsFrom(held, init, s);
      var e :| e in init && SlotOf(e) == s && Puts(held, init)[s] == e.value;
      assert e in es;
    }
  }

  /** Rules of active chains name only active chains and sets. */
  lemma ActiveRuleReferences(plans: Plans, used: UsedScores, cfg: Config, k: Kernel, d: Chain, i: nat)
    requires PlansOK(plans) && ChainsInstalled(k, plans, used, cfg)
    requires d in k.chains && !d.Stock? && i < |k.chains[d]|
    ensures forall c :: RuleTargets(k.chains[d][i], c) ==> Active(plans, c) || c == Stock(MarkMasq)
    ensures forall s :: RuleUsesSet(k.chains[d][i], s) ==> ActiveSet(plans, s)
  {
    assert Active(plans, d);
    var p := plans[d.spn];
    WantRulesStayWithin(p, d, used[d.spn], cfg);
    assert StaysWithin(p, k.chains[d][i]);
    OwnedAreNamed(p);
  }

  lemma OwnedAreNamed(p: Plan)
    ensures forall c :: c in p.OwnChains() ==> !c.Stock? && c.spn == p.spn
    ensures forall s :: s in p.OwnSets() ==> s.AffinitySet? && s.spn == p.spn
  {
  }

  /** No service chain that is not active is referenced: deleting it later is safe. */
  lemma InactiveUnreferenced(k: Kernel, plans: Plans, used: UsedScores, order: seq<ServicePortName>, cfg: Config,
                             c: Chain)
    requires Installed(k, plans, used, order, cfg) && !c.Stock? && !Active(plans, c)
    ensures !ChainReferenced(k, c)
  {
    forall d, i | d in k.chains && 0 <= i < |k.chains[d]|
      ensures !RuleTargets(k.chains[d][i], c)
    {
      if d.Stock? {
        assert k.chains[Stock(d.stock)] == StockRules(cfg, d.stock);
        StockRulesReferences(cfg, d.stock, i);
      } else {
        ActiveRuleReferences(plans, used, cfg, k, d, i);
      }
    }
    forall s | s in k.elements
      ensures k.elements[s] != GotoChain(c)
    {
      ElementsLeadToActive(plans, order, s);
    }
  }

  /** Nothing jumps to a base chain; true of everything the proxier ever writes. */
  ghost predicate BaseUnreferenced(k: Kernel) {
    forall s: StockChain :: IsBase(s) ==> !ChainReferenced(k, Stock(s))
  }

  lemma StockRulesAvoidBase(cfg: Config, s: StockChain, i: nat, base: StockChain)
    requires i < |StockRules(cfg, s)| && IsBase(base)
    ensures !RuleTargets(StockRules(cfg, s)[i], Stock(base))
  {
  }

  lemma InstalledBaseUnreferenced(k: Kernel, plans: Plans, used: UsedScores, order: seq<ServicePortName>, cfg: Config)
    requires Installed(k, plans, used, order, cfg)
    ensures BaseUnreferenced(k)
  {
    hide StockRules, RuleCompiler.Plan.WantRules, RuleCompiler.Plan.OwnChains, Puts, AllElements, RuleTargets;
    forall base: StockChain | IsBase(base)
      ensures !ChainReferenced(k, Stock(base))
    {
      forall d, i | d in k.chains && 0 <= i < |k.chains[d]|
        ensures !RuleTargets(k.chains[d][i], Stock(base))
      {
        if d.Stock? {
          assert k.chains[Stock(d.stock)] == StockRules(cfg, d.stock);
          StockRulesAvoidBase(cfg, d.stock, i, base);
        } else {
          ActiveRuleReferences(plans, used, cfg, k, d, i);
        }
      }
      forall s | s in k.elements
        ensures k.elements[s] != GotoChain(Stock(base))
      {
        ElementsLeadToActive(plans, order, s);
      }
    }
  }

  /** Service chains name no container and not the node-port set; true of everything the proxier ever writes. */
  ghost predicate ServiceRulesPlain(k: Kernel) {
    forall d, i :: d in k.chains && !d.Stock? && 0 <= i < |k.chains[d]| ==>
      !RuleUsesSet(k.chains[d][i], NodePortIPs)
  }

  lemma InstalledPlain(k: Kernel, plans: Plans, used: UsedScores, order: seq<ServicePortName>, cfg: Config)
    requires Installed(k, plans, used, order, cfg)
    ensures ServiceRulesPlain(k)
  {
    forall d, i | d in k.chains && !d.Stock? && 0 <= i < |k.chains[d]|
      ensures !RuleUsesSet(k.chains[d][i], NodePortIPs)
    {
      ActiveRuleReferences(plans, used, cfg, k, d, i);
    }
  }

  // ---- Progress of the service loop ----

  /** Chains the loop has rewritten: those of visited service ports that were not skipped. */
  ghost predicate Rewritten(plans: Plans, anew: set<ServicePortName>, c: Chain) {
    Active(plans, c) && c.spn in anew
  }

  ghost predicate LoopChains(chains: Chains, base: Chains, plans: Plans, used: UsedScores, cfg: Config,
                             anew: set<ServicePortName>)
    requires plans.Keys <= used.Keys
  {
    && (forall c :: c in chains <==> c in base || Rewritten(plans, anew, c))
    && (forall c :: c in chains ==>
          chains[c] == if Rewritten(plans, anew, c) then plans[c.spn].WantRules(c, used[c.spn], cfg) else base[c])
  }

  ghost predicate LoopSets(sets: map<SetName, set<string>>, base: map<SetName, set<string>>, plans: Plans,
                           anew: set<ServicePortName>) {
    && (forall s :: s in sets <==> s in base || (ActiveSet(plans, s) && s.spn in anew))
    && (forall s :: s in sets ==> sets[s] == if s in base then base[s] else {})
  }

  /** Affinity sets that were there keep their members, new ones start empty. */
  ghost predicate MembersKept(sets: map<SetName, set<string>>, before: map<SetName, set<string>>) {
    forall s: SetName :: s in sets && s.AffinitySet? ==> sets[s] == if s in before then before[s] else {}
  }

  /** The state of the loop: `anew` are the visited, not skipped service ports. */
  ghost predicate LoopState(k: Kernel, base: Kernel, plans: Plans, used: UsedScores, cfg: Config,
                            visited: seq<ServicePortName>, anew: set<ServicePortName>)
  {
    && plans.Keys <= used.Keys
    && LoopChains(k.chains, base.chains, plans, used, cfg, anew)
    && LoopSets(k.sets, base.sets, plans, anew)
    && k.elements == Puts(base.elements, AllElements(plans, visited))
    && k.containers == base.containers
  }

  lemma LoopStart(base: Kernel, plans: Plans, used: UsedScores, cfg: Config)
    requires plans.Keys <= used.Keys
    ensures LoopState(base, base, plans, used, cfg, [], {})
  {
  }

  lemma LoopChainsStep(chains: Chains, base: Chains, plans: Plans, used: UsedScores, cfg: Config,
                       anew: set<ServicePortName>, n: ServicePortName)
    requires PlansOK(plans) && n in plans && plans.Keys <= used.Keys
    requires LoopChains(chains, base, plans, used, cfg, anew)
    ensures LoopChains(chains + Want(plans[n], used[n], cfg), base, plans, used, cfg, anew + {n})
  {
    hide RuleCompiler.Plan.WantRules, RuleCompiler.Plan.OwnChains;
    OwnedAreNamed(plans[n]);
    assert forall c :: Rewritten(plans, anew + {n}, c) <==> Rewritten(plans, anew, c) || c in plans[n].OwnChains();
  }

  lemma LoopSetsStep(sets: map<SetName, set<string>>, base: map<SetName, set<string>>, plans: Plans,
                     anew: set<ServicePortName>, n: ServicePortName)
    requires PlansOK(plans) && n in plans && LoopSets(sets, base, plans, anew)
    ensures LoopSets(WithSets(sets, plans[n].OwnSets()), base, plans, anew + {n})
  {
    hide RuleCompiler.Plan.OwnSets;
    OwnedAreNamed(plans[n]);
    assert forall s :: ActiveSet(plans, s) && s.spn in anew + {n} <==>
             (ActiveSet(plans, s) && s.spn in anew) || s in plans[n].OwnSets();
  }

  /** One iteration of the service loop. */
  lemma LoopStep(k: Kernel, base: Kernel, plans: Plans, used: UsedScores, cfg: Config,
                 visited: seq<ServicePortName>, anew: set<ServicePortName>, n: ServicePortName, skip: bool)
    requires PlansOK(plans) && n in plans
    requires LoopState(k, base, plans, used, cfg, visited, anew)
    ensures LoopState(Served(plans[n], cfg, used[n], skip, k), base, plans, used, cfg, visited + [n],
                      if skip then anew else anew + {n})
  {
    hide LoopChains, LoopSets, Want, WithSets, RuleCompiler.Plan.Elements, Puts;
    if !skip {
      LoopChainsStep(k.chains, base.chains, plans, used, cfg, anew, n);
      LoopSetsStep(k.sets, base.sets, plans, anew, n);
    }
    assert (visited + [n])[..|visited|] == visited;
    PutsConcat(base.elements, AllElements(plans, visited), plans[n].Elements());
  }

  // ---- After the loop ----

  /** What the loop starts from: set up, with the skipped service ports' chains and sets already right. */
  ghost predicate BaseReady(base: Kernel, plans: Plans, used: UsedScores, cfg: Config, skipped: set<ServicePortName>) {
    && plans.Keys <= used.Keys
    && StockInstalled(base, cfg)
    && NodePortSetInstalled(base, cfg)
    && (forall c :: Active(plans, c) && c.spn in skipped ==>
          c in base.chains && base.chains[c] == plans[c.spn].WantRules(c, used[c.spn], cfg))
    && (forall s :: ActiveSet(plans, s) && s.spn in skipped ==> s in base.sets)
  }

  /** Once what nothing uses has been flushed, every chain is as it should be. */
  lemma ChainsAfterLoop(k: Kernel, base: Kernel, plans: Plans, used: UsedScores, cfg: Config,
                        visited: seq<ServicePortName>, anew: set<ServicePortName>, skipped: set<ServicePortName>,
                        stale: set<Chain>)
    requires LoopState(k, base, plans, used, cfg, visited, anew) && BaseReady(base, plans, used, cfg, skipped)
    requires plans.Keys == anew + skipped
    requires forall c: Chain :: c in stale <==> c in base.chains && !c.Stock? && !Active(plans, c)
    ensures stale <= k.chains.Keys
    ensures ChainsInstalled(k.(chains := k.chains + Blank(stale)), plans, used, cfg)
    ensures StockInstalled(k.(chains := k.chains + Blank(stale)), cfg)
  {
    hide StockRules, RuleCompiler.Plan.WantRules, RuleCompiler.Plan.OwnChains, Puts, AllElements;
    var after := k.chains + Blank(stale);
    forall c | Active(plans, c)
      ensures c in after && after[c] == plans[c.spn].WantRules(c, used[c.spn], cfg)
    {
      assert c.spn in anew || c.spn in skipped;
    }
    forall c | c in after && !c.Stock? && !Active(plans, c)
      ensures after[c] == []
    {
      assert c in k.chains;
    }
    forall s: StockChain
      ensures Stock(s) in after && after[Stock(s)] == StockRules(cfg, s)
    {
      assert Stock(s) in base.chains;
      assert !Rewritten(plans, anew, Stock(s));
    }
  }

  /** An affinity set that is not active is named by no rule: deleting it at once is safe. */
  lemma InactiveSetUnreferenced(k: Kernel, plans: Plans, used: UsedScores, cfg: Config, s: SetName)
    requires PlansOK(plans) && ChainsInstalled(k, plans, used, cfg) && StockInstalled(k, cfg)
    requires s.AffinitySet? && !ActiveSet(plans, s)
    ensures !SetReferenced(k, s)
  {
    hide StockRules, RuleCompiler.Plan.WantRules, RuleCompiler.Plan.OwnChains, RuleCompiler.Plan.OwnSets, RuleUsesSet;
    forall d, i | d in k.chains && 0 <= i < |k.chains[d]|
      ensures !RuleUsesSet(k.chains[d][i], s)
    {
      if d.Stock? {
        assert k.chains[Stock(d.stock)] == StockRules(cfg, d.stock);
        StockRulesReferences(cfg, d.stock, i);
      } else {
        ActiveRuleReferences(plans, used, cfg, k, d, i);
      }
    }
  }

  /** With the inactive affinity sets deleted, exactly the active ones exist. */
  lemma SetsAfterLoop(sets: map<SetName, set<string>>, base: map<SetName, set<string>>, plans: Plans,
                      anew: set<ServicePortName>, skipped: set<ServicePortName>, stale: set<SetName>)
    requires LoopSets(sets, base, plans, anew) && plans.Keys == anew + skipped
    requires forall s :: ActiveSet(plans, s) && s.spn in skipped ==> s in base
    requires forall s: SetName :: s in stale <==> s in base && s.AffinitySet? && !ActiveSet(plans, s)
    ensures stale <= sets.Keys
    ensures forall s: SetName :: s.AffinitySet? ==> (s in sets - stale <==> ActiveSet(plans, s))
    ensures NodePortIPs in sets - stale <==> NodePortIPs in base
    ensures NodePortIPs in base ==> (sets - stale)[NodePortIPs] == base[NodePortIPs]
    ensures MembersKept(sets - stale, base)
  {
    hide RuleCompiler.Plan.OwnSets;
  }

  // ---- What a partial sync may start from ----

  /** Service ports whose plan and scores are those of the last sync keep what is installed. */
  lemma InstalledIsReady(k: Kernel, was: Plans, usedThen: UsedScores, order: seq<ServicePortName>, cfg: Config,
                         plans: Plans, used: UsedScores, skipped: set<ServicePortName>)
    requires Installed(k, was, usedThen, order, cfg) && plans.Keys <= used.Keys && skipped <= plans.Keys
    requires forall n :: n in skipped ==> n in was && was[n] == plans[n] && used[n] == usedThen[n]
    ensures BaseReady(k, plans, used, cfg, skipped)
    ensures forall n :: n in skipped ==> plans[n].OwnChains() <= k.chains.Keys
  {
    hide StockRules, RuleCompiler.Plan.WantRules, RuleCompiler.Plan.OwnSets, RuleCompiler.Plan.OwnChains, Puts,
      AllElements;
    forall c | Active(plans, c) && c.spn in skipped
      ensures c in k.chains && k.chains[c] == plans[c.spn].WantRules(c, used[c.spn], cfg)
    {
      assert Active(was, c);
    }
    forall s | ActiveSet(plans, s) && s.spn in skipped
      ensures s in k.sets
    {
      assert ActiveSet(was, s);
    }
    forall n, c | n in skipped && c in plans[n].OwnChains()
      ensures c in k.chains
    {
      OwnedAreNamed(was[n]);
      assert Active(was, c);
    }
  }

  /** Deleting chains that are not active keeps the state installed. */
  lemma InstalledWithout(k: Kernel, plans: Plans, used: UsedScores, order: seq<ServicePortName>, cfg: Config,
                         gone: set<Chain>)
    requires Installed(k, plans, used, order, cfg)
    requires forall c :: c in gone ==> !c.Stock? && !Active(plans, c)
    ensures Installed(k.(chains := k.chains - gone), plans, used, order, cfg)
  {
    hide StockRules, RuleCompiler.Plan.WantRules, RuleCompiler.Plan.OwnSets, RuleCompiler.Plan.OwnChains, Puts,
      AllElements;
    var k' := k.(chains := k.chains - gone);
    forall c | Active(plans, c)
      ensures c in k'.chains && k'.chains[c] == plans[c.spn].WantRules(c, used[c.spn], cfg)
    {
      assert c in k.chains;
    }
  }
}
