/** `Proxier.syncProxyRules` and the event handlers around it (nftables/proxier.go). */
module Proxier {
  import opened ProxyTypes
  import opened Topology
  import opened Nftables
  import opened RuleCompiler
  import opened ElementStorage
  import opened RuleWriter
  import opened ServiceWriter
  import opened SyncState
  import opened SyncWriter
  import opened ServiceTracker
  import opened EndpointSlices
  import opened EndpointTracker
  import opened ProxierRuns
  import opened Conntrack
  import Health

  // ---- The nftables interface ----

  function ChainsAfter(names: set<Chain>, op: Op): set<Chain> {
    match op
    case AddChain(c) => names + {c}
    case DeleteChain(c) => names - {c}
    case _ => names
  }

  function SetsAfter(names: set<SetName>, op: Op): set<SetName> {
    match op
    case AddSet(s) => names + {s}
    case DeleteSet(s) => names - {s}
    case _ => names
  }

  /** The chains that exist after a transaction. */
  function ChainNames(names: set<Chain>, tx: seq<Op>): set<Chain> {
    if tx == [] then names else ChainsAfter(ChainNames(names, tx[..|tx| - 1]), tx[|tx| - 1])
  }

  /** The sets that exist after a transaction. */
  function SetNames(names: set<SetName>, tx: seq<Op>): set<SetName> {
    if tx == [] then names else SetsAfter(SetNames(names, tx[..|tx| - 1]), tx[|tx| - 1])
  }

  lemma NamesFollowOne(k: Kernel, op: Op)
    requires Apply(k, op).Some?
    ensures Apply(k, op).value.chains.Keys == ChainsAfter(k.chains.Keys, op)
    ensures Apply(k, op).value.sets.Keys == SetsAfter(k.sets.Keys, op)
  {
    hide ChainReferenced, SetReferenced, RuleResolves, Flushed;
  }

  lemma {:induction false} NamesFollow(k: Kernel, tx: seq<Op>)
    requires Run(k, tx).Some?
    ensures Run(k, tx).value.chains.Keys == ChainNames(k.chains.Keys, tx)
    ensures Run(k, tx).value.sets.Keys == SetNames(k.sets.Keys, tx)
    decreases |tx|
  {
    hide Apply, ChainsAfter, SetsAfter;
    if tx != [] {
      NamesFollow(k, tx[..|tx| - 1]);
      NamesFollowOne(Run(k, tx[..|tx| - 1]).value, tx[|tx| - 1]);
    }
  }

  /** The kernel, as far as the proxier can see it: it can list names and run transactions. */
  class Nft {
    ghost var kernel: Kernel
    var chains: set<Chain>
    var sets: set<SetName>

    ghost predicate Valid()
      reads this
    {
      chains == kernel.chains.Keys && sets == kernel.sets.Keys
    }

    /** A table left behind by an earlier proxier, or none. */
    constructor (chains: set<Chain>, sets: set<SetName>, ghost kernel: Kernel)
      requires chains == kernel.chains.Keys && sets == kernel.sets.Keys
      ensures Valid() && this.kernel == kernel
    {
      this.chains, this.sets, this.kernel := chains, sets, kernel;
    }

    /** Running a transaction the kernel accepts either takes effect as a whole or, on failure, not at all. */
    method RunTransaction(tx: seq<Op>, ok: bool)
      requires Valid() && Run(kernel, tx).Some?
      modifies this
      ensures Valid() && kernel == if ok then Run(old(kernel), tx).value else old(kernel)
    {
      if ok {
        NamesFollow(kernel, tx);
        chains := ChainNames(chains, tx);
        sets := SetNames(sets, tx);
        kernel := Run(kernel, tx).value;
      }
    }
  }

  // ---- The service loop ----

  ghost predicate VisitedActive(plans: Plans, visited: seq<ServicePortName>, active: set<Chain>,
                                activeSets: set<SetName>) {
    && (forall c :: c in active <==> Active(plans, c) && c.spn in visited)
    && (forall s :: s in activeSets <==> ActiveSet(plans, s) && s.spn in visited)
  }

  lemma VisitedActiveStep(plans: Plans, visited: seq<ServicePortName>, active: set<Chain>, activeSets: set<SetName>,
                          n: ServicePortName)
    requires PlansOK(plans) && n in plans && VisitedActive(plans, visited, active, activeSets)
    ensures VisitedActive(plans, visited + [n], active + plans[n].OwnChains(), activeSets + plans[n].OwnSets())
  {
    OwnedAreNamed(plans[n]);
    hide RuleCompiler.Plan.OwnChains, RuleCompiler.Plan.OwnSets;
  }

  /** What an iteration may rely on. */
  lemma BeforeIteration(k: Kernel, base: Kernel, plans: Plans, use: UsedScores, cfg: Config,
                        visited: seq<ServicePortName>, anew: set<ServicePortName>,
                        active: set<Chain>, activeSets: set<SetName>, n: ServicePortName, skip: bool,
                        skipped: set<ServicePortName>)
    requires PlansOK(plans) && n in plans && n !in visited && (skip ==> plans[n].OwnChains() <= base.chains.Keys)
    requires LoopState(k, base, plans, use, cfg, visited, anew) && BaseReady(base, plans, use, cfg, skipped)
    requires VisitedActive(plans, visited, active, activeSets)
    ensures plans[n].spn == n && plans[n].Consistent()
    ensures forall c :: c in active ==> c.Stock? || c.spn != n
    ensures Stock(RejectChain) in k.chains && Stock(MarkMasq) in k.chains && ALL_CONTAINERS <= k.containers
    ensures skip ==> plans[n].OwnChains() <= k.chains.Keys
  {
    hide RuleCompiler.Plan.OwnChains, RuleCompiler.Plan.WantRules, StockRules, Puts, AllElements,
      RuleCompiler.Plan.Consistent;
    assert Stock(RejectChain) in base.chains && Stock(MarkMasq) in base.chains;
  }

  /** What an iteration leaves behind. */
  lemma AfterIteration(k: Kernel, base: Kernel, plans: Plans, use: UsedScores, cfg: Config,
                       visited: seq<ServicePortName>, anew: set<ServicePortName>,
                       active: set<Chain>, activeSets: set<SetName>, n: ServicePortName, skip: bool,
                       fetched: Option<ScoreMap>)
    requires PlansOK(plans) && n in plans && n in use && (skip || use[n] == fetched)
    requires LoopState(k, base, plans, use, cfg, visited, anew) && VisitedActive(plans, visited, active, activeSets)
    ensures LoopState(Served(plans[n], cfg, fetched, skip, k), base, plans, use, cfg, visited + [n],
                      if skip then anew else anew + {n})
    ensures VisitedActive(plans, visited + [n], active + plans[n].OwnChains(), activeSets + plans[n].OwnSets())
    ensures AllElements(plans, visited + [n]) == AllElements(plans, visited) + plans[n].Elements()
  {
    hide LoopState, VisitedActive, RuleCompiler.Plan.OwnChains, RuleCompiler.Plan.OwnSets, RuleCompiler.Plan.Elements,
      PlansOK, Want, Puts, WithSets;
    assert Served(plans[n], cfg, fetched, skip, k) == Served(plans[n], cfg, use[n], skip, k);
    LoopStep(k, base, plans, use, cfg, visited, anew, n, skip);
    VisitedActiveStep(plans, visited, active, activeSets, n);
    assert (visited + [n])[..|visited|] == visited;
  }

  lemma LoopEntry(storage: NftElementStorage, base: Kernel, plans: Plans, use: UsedScores, cfg: Config)
    requires storage.InSync(base.elements) && plans.Keys <= use.Keys
    ensures LoopState(base, base, plans, use, cfg, [], {})
    ensures VisitedActive(plans, [], {}, {})
    ensures storage.Writing(base.elements, AllElements(plans, []))
  {
    hide LoopState, Pictures;
    LoopStart(base, plans, use, cfg);
  }

  function FetchedScores(scores: map<string, ScoreMap>, n: ServicePortName): Option<ScoreMap> {
    if NameString(n) in scores then Some(scores[NameString(n)]) else None
  }

  // ---- Before the loop ----

  /** Same service chains and affinity sets. */
  ghost predicate GrownFrom(base: Kernel, k: Kernel) {
    && (forall c: Chain :: !c.Stock? ==> (c in base.chains <==> c in k.chains))
    && (forall s: SetName :: s.AffinitySet? ==> (s in base.sets <==> s in k.sets))
    && (forall s: SetName :: s.AffinitySet? && s in base.sets ==> base.sets[s] == k.sets[s])
  }

  lemma GrownFromSelf(k: Kernel)
    ensures GrownFrom(k, k)
  {
  }

  lemma SetUpReady(base: Kernel, k: Kernel, plans: Plans, use: UsedScores, cfg: Config)
    requires SetUp(base, k, cfg) && plans.Keys <= use.Keys
    ensures BaseReady(base, plans, use, cfg, {}) && GrownFrom(base, k) && base.elements == map[]
  {
    hide StockInstalled, NodePortMembers, Active, ActiveSet, RuleCompiler.Plan.WantRules;
  }

  lemma KernelInvParts(k: Kernel, stale: set<Chain>)
    requires KernelInv(k, stale)
    ensures Closed(k) && ServiceRulesPlain(k) && BaseUnreferenced(k) && StaleUnreferenced(k, stale)
  {
  }

  lemma InvSplit(s: State, cfg: Config, node: Node)
    requires Inv(s, cfg, node)
    ensures TrackersInv(s, node) && KernelInv(s.kernel, s.staleChains.Keys) && SyncedInv(s, cfg)
  {
  }

  lemma DeletionIs(s: State, kd: Kernel, left: map<Chain, int>, now: int, ok: bool)
    requires left == map c | c in s.staleChains && s.staleChains[c] >= now - SECOND :: s.staleChains[c]
    requires kd == if ok then s.kernel.(chains := s.kernel.chains - (s.staleChains.Keys - left.Keys)) else s.kernel
    ensures kd == AfterDeletion(s, now, ok)
  {
    assert s.staleChains.Keys - left.Keys == OldChains(s, now);
  }

  lemma NothingStale(s: State, now: int, ok: bool)
    requires s.staleChains == map[]
    ensures AfterDeletion(s, now, ok) == s.kernel
  {
    assert OldChains(s, now) == {};
    assert s.kernel.chains - {} == s.kernel.chains;
  }

  lemma NotInitialized(s: State, input: SyncInput, cfg: Config, node: Node)
    requires !(s.servicesSynced && s.slicesSynced)
    ensures Step(s, Sync(input), s, cfg, node)
  {
  }

  /** The maps agree with those of the last sync, except for updated services. */
  ghost predicate KeptOutside(s: State, s1: State, updated: set<NamespacedName>) {
    forall n: ServicePortName :: n.nn !in updated ==>
      && (n in s1.svcPortMap <==> n in s.svcPortMap) && (n in s1.svcPortMap ==> s1.svcPortMap[n] == s.svcPortMap[n])
      && ListOf(s1.endpointsMap, n) == ListOf(s.endpointsMap, n)
  }

  lemma PlansKept(s: State, s1: State, updated: set<NamespacedName>, cfg: Config)
    requires KeptOutside(s, s1, updated) && s1.nodeLabels == s.nodeLabels
    ensures forall n :: n in StatePlans(s1, cfg) && n.nn !in updated ==>
              n in StatePlans(s, cfg) && StatePlans(s, cfg)[n] == StatePlans(s1, cfg)[n]
  {
    hide MakePlan, ListOf;
  }

  /** What a partial sync starts from is right for every service port it skips. */
  lemma PartialReady(s: State, s1: State, plans: Plans, fetched: UsedScores, now: int, ok: bool, cfg: Config)
    requires SyncedInv(s, cfg) && !s.needFullSync && KeptOutside(s, s1, Updated(s)) && s1.nodeLabels == s.nodeLabels
    requires plans == StatePlans(s1, cfg) && (forall c :: c in s.staleChains ==> !c.Stock?)
    ensures BaseReady(AfterDeletion(s, now, ok), plans, UsedAfter(s, plans, fetched), cfg, Skipped(s, plans))
    ensures forall n :: n in Skipped(s, plans) ==> plans[n].OwnChains() <= AfterDeletion(s, now, ok).chains.Keys
  {
    hide Installed, PlansOf, StatePlans, KeptOutside, Pictures, Active, BaseReady, RuleCompiler.Plan.OwnChains, Updated;
    var was := StatePlans(s, cfg);
    PlansKept(s, s1, Updated(s), cfg);
    InstalledUses(s.kernel, was, s.used, s.order, cfg);
    if ok {
      InstalledWithout(s.kernel, was, s.used, s.order, cfg, OldChains(s, now));
    }
    InstalledIsReady(AfterDeletion(s, now, ok), was, s.used, s.order, cfg, plans, UsedAfter(s, plans, fetched),
                     Skipped(s, plans));
  }

  lemma InstalledUses(k: Kernel, plans: Plans, used: UsedScores, order: seq<ServicePortName>, cfg: Config)
    requires Installed(k, plans, used, order, cfg)
    ensures plans.Keys <= used.Keys
  {
  }

  /** What is fetched is what is kept under the key of the service port. */
  lemma FetchedAre(sm: ServicePortMap, scores: map<string, ScoreMap>)
    ensures forall n :: n in sm ==> n in FetchedFor(sm, scores) && ScoredAs(scores, n, FetchedFor(sm, scores)[n])
  {
    forall n | n in sm
      ensures ScoredAs(scores, n, FetchedFor(sm, scores)[n])
    {
      forall key | IsKeyOf(key, n)
        ensures key == NameString(n)
      {
        assert ":" + n.port == [':'] + n.port;
      }
    }
  }

  /**
   After a committed sync every service port is dispatched by the scores kept under its key, or evenly
   if there are none; one that rests keeps the scores it was last written with.
   */
  ghost predicate ScoresUsed(s: State, s': State, scores: map<string, ScoreMap>) {
    forall n :: n in s'.svcPortMap ==>
      && n in s'.used && (Rests(s, n) ==> n in s.used && s'.used[n] == s.used[n])
      && (!Rests(s, n) ==> ScoredAs(scores, n, s'.used[n]))
  }

  lemma UsesScores(s: State, s': State, input: SyncInput, scores: map<string, ScoreMap>, cfg: Config, node: Node)
    requires Inv(s, cfg, node) && s.servicesSynced && s.slicesSynced && input.commitOk
    requires Step(s, Sync(input), s', cfg, node)
    requires forall n :: n in s'.svcPortMap ==> n in input.fetched && ScoredAs(scores, n, input.fetched[n])
    ensures ScoresUsed(s, s', scores)
  {
    hide Inv, SyncStep, Rests, ScoredAs;
    forall n | n in s'.svcPortMap
      ensures n in s'.used && (Rests(s, n) ==> n in s.used && s'.used[n] == s.used[n])
      ensures !Rests(s, n) ==> ScoredAs(scores, n, s'.used[n])
    {
      CommittedUses(s, s', input, cfg, node, n);
    }
  }

  function FetchedFor(sm: ServicePortMap, scores: map<string, ScoreMap>): UsedScores {
    map n | n in sm :: FetchedScores(scores, n)
  }

  /** What writing the rules relies on: in a partial sync, that the skipped service ports are installed. */
  ghost predicate ReadyToWrite(k: Kernel, sm: ServicePortMap, em: EndpointsMap, labels: Option<Labels>, cfg: Config,
                               tryPartial: bool, updated: set<NamespacedName>, scores: map<string, ScoreMap>,
                               use: UsedScores) {
    var plans := PlansOf(sm, em, labels, cfg);
    var skipped := set n | n in plans && tryPartial && n.nn !in updated;
    && PlansOK(plans) && plans.Keys <= use.Keys
    && (forall n :: n in sm ==> UniqueAddresses(ListOf(em, n)))
    && (forall n :: n in plans && n !in skipped ==> use[n] == FetchedScores(scores, n))
    && (tryPartial ==>
          BaseReady(k, plans, use, cfg, skipped) && forall n :: n in skipped ==> plans[n].OwnChains() <= k.chains.Keys)
  }

  lemma WhatIsReady(k: Kernel, sm: ServicePortMap, em: EndpointsMap, labels: Option<Labels>, cfg: Config,
                    tryPartial: bool, updated: set<NamespacedName>, scores: map<string, ScoreMap>, use: UsedScores)
    requires ReadyToWrite(k, sm, em, labels, cfg, tryPartial, updated, scores, use)
    ensures var plans := PlansOf(sm, em, labels, cfg);
            var skipped := set n | n in plans && tryPartial && n.nn !in updated;
            && PlansOK(plans) && plans.Keys <= use.Keys
            && (forall n :: n in sm ==> UniqueAddresses(ListOf(em, n)))
            && (forall n :: n in plans && n !in skipped ==> use[n] == FetchedScores(scores, n))
            && (tryPartial ==>
                  BaseReady(k, plans, use, cfg, skipped)
                  && forall n :: n in skipped ==> plans[n].OwnChains() <= k.chains.Keys)
  {
    hide PlansOf, PlansOK, UniqueAddresses, FetchedScores, BaseReady, RuleCompiler.Plan.OwnChains, ListOf;
  }

  lemma SyncReady(s: State, s1: State, kd: Kernel, updated: set<NamespacedName>, scores: map<string, ScoreMap>,
                  use: UsedScores,
                  now: int, ok: bool, cfg: Config, node: Node)
    requires SyncedInv(s, cfg) && TrackersInv(s1, node) && KernelInv(s.kernel, s.staleChains.Keys)
    requires updated == Updated(s) && KeptOutside(s, s1, updated) && s1.nodeLabels == s.nodeLabels
    requires use == UsedAfter(s, StatePlans(s1, cfg), FetchedFor(s1.svcPortMap, scores))
    requires kd == AfterDeletion(s, now, ok)
    ensures ReadyToWrite(kd, s1.svcPortMap, s1.endpointsMap, s1.nodeLabels, cfg, !s.needFullSync, updated, scores, use)
    ensures !s.needFullSync ==> Pictures(s.record, kd.elements) && s.leftoverKeys == s.record.Keys
  {
    hide Installed, PlansOf, KeptOutside, Pictures, Active, BaseReady, RuleCompiler.Plan.OwnChains, Updated,
      FetchedScores, Closed, ServiceRulesPlain,
      ChainReferenced, PlansOK, UniqueAddresses, ListOf, Tracks, UnionOf, Follows, GroupsApplied, AllPrintable,
      NamedByKey;
    var plans := StatePlans(s1, cfg);
    PlansOfOK(s1.svcPortMap, s1.endpointsMap, s1.nodeLabels, cfg, s1.synced, node, s1.trackers);
    PlanKeys(s1.svcPortMap, s1.endpointsMap, s1.nodeLabels, cfg);
    forall n
      ensures UniqueAddresses(ListOf(s1.endpointsMap, n))
    {
      ListsUnique(s1.endpointsMap, node, s1.trackers, n);
    }
    assert Skipped(s, plans) == set n | n in plans && !s.needFullSync && n.nn !in updated;
    if !s.needFullSync {
      PartialReady(s, s1, plans, FetchedFor(s1.svcPortMap, scores), now, ok, cfg);
    }
  }

  lemma ViewKept(s: State, s1: State, svcs: set<NamespacedName>, eps: set<NamespacedName>)
    requires forall p: ServicePortName :: p.nn !in svcs ==>
               (p in s.svcPortMap <==> p in s1.svcPortMap)
               && (p in s.svcPortMap ==> s.svcPortMap[p] == s1.svcPortMap[p])
    requires forall n: ServicePortName :: n.nn !in eps ==>
               (n in s.endpointsMap <==> n in s1.endpointsMap)
               && (n in s.endpointsMap ==> s.endpointsMap[n] == s1.endpointsMap[n])
    ensures KeptOutside(s, s1, svcs + eps)
  {
  }

  // ---- After the loop ----

  /**
   Exactly the service chains that are not active are noted stale, none of them came or went, and
   affinities are kept.
   */
  ghost predicate StaleNoted(k: Kernel, before: Kernel, plans: Plans, stale: map<Chain, int>, now: int) {
    && stale == (map c | c in k.chains && !c.Stock? && !Active(plans, c) :: now)
    && (forall c: Chain :: !c.Stock? && !Active(plans, c) ==> (c in k.chains <==> c in before.chains))
    && MembersKept(k.sets, before.sets)
  }

  lemma StaleAre(base: Kernel, k: Kernel, plans: Plans, visited: seq<ServicePortName>, active: set<Chain>,
                 activeSets: set<SetName>)
    requires GrownFrom(base, k) && Visits(visited, plans) && VisitedActive(plans, visited, active, activeSets)
    ensures forall c: Chain :: c in StaleOf(k.chains.Keys, active) <==>
              c in base.chains && !c.Stock? && !Active(plans, c)
    ensures forall s: SetName :: s in StaleSetsOf(k.sets.Keys, activeSets) <==>
              s in base.sets && s.AffinitySet? && !ActiveSet(plans, s)
  {
    hide RuleCompiler.Plan.OwnSets, RuleCompiler.Plan.OwnChains;
  }

  lemma LoopDone(k: Kernel, base: Kernel, before: Kernel, plans: Plans, use: UsedScores, cfg: Config,
                 visited: seq<ServicePortName>, anew: set<ServicePortName>,
                 skipped: set<ServicePortName>, active: set<Chain>, activeSets: set<SetName>, stale: set<Chain>,
                 staleSets: set<SetName>, now: int)
    requires PlansOK(plans) && GrownFrom(base, before)
    requires LoopState(k, base, plans, use, cfg, visited, anew) && BaseReady(base, plans, use, cfg, skipped)
    requires Visits(visited, plans) && plans.Keys == anew + skipped && VisitedActive(plans, visited, active, activeSets)
    requires stale == StaleOf(before.chains.Keys, active) && staleSets == StaleSetsOf(before.sets.Keys, activeSets)
    ensures k.elements == Puts(base.elements, AllElements(plans, visited))
    ensures stale <= k.chains.Keys && staleSets <= k.sets.Keys
    ensures var k1 := k.(chains := k.chains + Blank(stale));
            && (forall s :: s in staleSets ==> !SetReferenced(k1, s))
            && var k2 := k1.(sets := k1.sets - staleSets, elements := Puts(map[], AllElements(plans, visited)));
               && Installed(k2, plans, use, visited, cfg)
               && StaleNoted(k2, before, plans, map c | c in stale :: now, now)
  {
    hide *;
    StaleAre(base, before, plans, visited, active, activeSets);
    LoopParts(k, base, plans, use, cfg, visited, anew, skipped);
    ChainsAfterLoop(k, base, plans, use, cfg, visited, anew, skipped, stale);
    SetsAfterLoop(k.sets, base.sets, plans, anew, skipped, staleSets);
    var k1 := k.(chains := k.chains + Blank(stale));
    forall s | s in staleSets
      ensures !SetReferenced(k1, s)
    {
      InactiveSetUnreferenced(k1, plans, use, cfg, s);
    }
    var k2 := k1.(sets := k1.sets - staleSets, elements := Puts(map[], AllElements(plans, visited)));
    InstalledAssemble(k1, k2, base, plans, use, visited, cfg);
    StaleNotedFrom(k, k2, base, before, plans, use, cfg, visited, anew, stale, now);
  }

  lemma LoopParts(k: Kernel, base: Kernel, plans: Plans, use: UsedScores, cfg: Config, visited: seq<ServicePortName>,
                  anew: set<ServicePortName>, skipped: set<ServicePortName>)
    requires LoopState(k, base, plans, use, cfg, visited, anew) && BaseReady(base, plans, use, cfg, skipped)
    ensures LoopSets(k.sets, base.sets, plans, anew) && NodePortSetInstalled(base, cfg)
    ensures k.elements == Puts(base.elements, AllElements(plans, visited))
    ensures forall s :: ActiveSet(plans, s) && s.spn in skipped ==> s in base.sets
  {
  }

  lemma InstalledAssemble(k1: Kernel, k2: Kernel, base: Kernel, plans: Plans, use: UsedScores,
                          visited: seq<ServicePortName>, cfg: Config)
    requires PlansOK(plans) && Visits(visited, plans) && NodePortSetInstalled(base, cfg)
    requires ChainsInstalled(k1, plans, use, cfg) && StockInstalled(k1, cfg)
    requires k2 == k1.(sets := k2.sets, elements := Puts(map[], AllElements(plans, visited)))
    requires forall s: SetName :: s.AffinitySet? ==> (s in k2.sets <==> ActiveSet(plans, s))
    requires NodePortIPs in k2.sets <==> NodePortIPs in base.sets
    requires NodePortIPs in base.sets ==> k2.sets[NodePortIPs] == base.sets[NodePortIPs]
    ensures Installed(k2, plans, use, visited, cfg)
  {
    hide PlansOK, Visits, StockRules, RuleCompiler.Plan.WantRules, Active, ActiveSet, Puts, AllElements;
  }

  lemma StaleNotedFrom(k: Kernel, k2: Kernel, base: Kernel, before: Kernel, plans: Plans, use: UsedScores, cfg: Config,
                       visited: seq<ServicePortName>,
                       anew: set<ServicePortName>, stale: set<Chain>, now: int)
    requires LoopState(k, base, plans, use, cfg, visited, anew) && GrownFrom(base, before)
    requires k2.chains == k.chains + Blank(stale) && MembersKept(k2.sets, base.sets)
    requires forall c: Chain :: c in stale <==> c in base.chains && !c.Stock? && !Active(plans, c)
    ensures StaleNoted(k2, before, plans, map c | c in stale :: now, now)
  {
    hide RuleCompiler.Plan.WantRules, Active, Puts, AllElements;
  }

  lemma StaleExist(k: Kernel, stale: set<Chain>)
    requires StaleUnreferenced(k, stale)
    ensures stale <= k.chains.Keys && forall c :: c in stale ==> !c.Stock?
  {
    hide ChainReferenced;
  }

  lemma NftNames(nft: Nft)
    requires nft.Valid()
    ensures nft.chains == nft.kernel.chains.Keys && nft.sets == nft.kernel.sets.Keys
  {
  }

  // ---- The two outcomes ----

  lemma Committed(s: State, s1: State, kd: Kernel, tx: seq<Op>, s': State, input: SyncInput, use: UsedScores,
                  cfg: Config, node: Node)
    requires s.servicesSynced && s.slicesSynced && input.commitOk && MapsUpdated(s, s1, node)
    requires Closed(kd) && kd == AfterDeletion(s, input.now, input.deleteOk) && Run(kd, tx) == Some(s'.kernel)
    requires s' == s1.(needFullSync := false, staleChains := s'.staleChains, record := s'.record,
                       leftoverKeys := s'.leftoverKeys,
                       kernel := s'.kernel, used := use, order := input.order)
    requires use == UsedAfter(s, StatePlans(s1, cfg), input.fetched)
    requires Installed(s'.kernel, StatePlans(s1, cfg), use, input.order, cfg)
    requires Pictures(s'.record, s'.kernel.elements) && s'.leftoverKeys == s'.record.Keys
    requires StaleNoted(s'.kernel, kd, StatePlans(s1, cfg), s'.staleChains, input.now)
    ensures Step(s, Sync(input), s', cfg, node)
  {
    hide Installed, PlansOf, UsedAfter, Pictures, Run, Closed, UnionOf, GroupsApplied, CheckedOut, Active,
      AfterDeletion, PendingServices, ListOf, MembersKept;
    RunKeepsClosed(kd, tx);
    DeletionKeepsSets(s, input.now, input.deleteOk);
  }

  lemma DeletionKeepsSets(s: State, now: int, ok: bool)
    ensures AfterDeletion(s, now, ok).sets == s.kernel.sets
  {
  }

  lemma Failed(s: State, s1: State, kd: Kernel, s': State, input: SyncInput, cfg: Config, node: Node)
    requires s.servicesSynced && s.slicesSynced && !input.commitOk && MapsUpdated(s, s1, node)
    requires kd == AfterDeletion(s, input.now, input.deleteOk)
    requires s' == s1.(needFullSync := true, staleChains := map[], record := s'.record, leftoverKeys := s'.leftoverKeys,
                       kernel := kd)
    ensures Step(s, Sync(input), s', cfg, node)
  {
    hide PlansOf, AfterDeletion, UnionOf, GroupsApplied, CheckedOut;
  }

  // ---- The proxier ----

  class Proxier {
    const cfg: Config
    const node: Node
    const nft: Nft
    const storage: NftElementStorage
    const serviceChanges: ServiceChangeTracker
    const endpointsChanges: EndpointSliceCache
    const ct: Table
    const health: Health.ProxierHealthServer
    const family: Health.Family
    const parse: string -> Option<string>

    var servicesSynced: bool
    var slicesSynced: bool
    var svcPortMap: ServicePortMap
    var endpointsMap: EndpointsMap
    var nodeLabels: Option<Labels>
    var needFullSync: bool
    var staleChains: map<Chain, int>
    var flushed: bool

    ghost var services: Services
    ghost var live: Live
    ghost var synced: Services
    ghost var used: UsedScores
    ghost var order: seq<ServicePortName>

    ghost function Objects(): set<object> {
      {this, nft, storage, serviceChanges, endpointsChanges}
    }

    ghost function View(): State
      reads Objects()
    {
      State(services, live, servicesSynced, slicesSynced, synced, serviceChanges.items, svcPortMap,
            endpointsChanges.trackers, endpointsMap, nodeLabels, needFullSync, staleChains,
            storage.elements, storage.leftoverKeys, nft.kernel, used, order)
    }

    ghost predicate Valid()
      reads Objects()
    {
      nft.Valid() && endpointsChanges.node == node && Inv(View(), cfg, node)
    }

    lemma ViewFields()
      ensures View() == State(services, live, servicesSynced, slicesSynced, synced, serviceChanges.items, svcPortMap,
                              endpointsChanges.trackers, endpointsMap, nodeLabels, needFullSync, staleChains,
                              storage.elements, storage.leftoverKeys, nft.kernel, used, order)
    {
    }

    lemma ValidFrom()
      requires nft.Valid() && endpointsChanges.node == node && Inv(View(), cfg, node)
      ensures Valid()
    {
    }

    lemma ValidParts()
      requires Valid()
      ensures nft.Valid() && endpointsChanges.node == node && Inv(View(), cfg, node)
    {
    }

    constructor (cfg: Config, node: Node, nft: Nft, ct: Table, health: Health.ProxierHealthServer,
                 family: Health.Family,
                 parse: string -> Option<string>)
      requires nft.Valid() && Closed(nft.kernel) && ServiceRulesPlain(nft.kernel) && BaseUnreferenced(nft.kernel)
      ensures Valid() && Initial(View()) && this.cfg == cfg && this.node == node && this.nft == nft
    {
      this.cfg, this.node, this.nft := cfg, node, nft;
      this.ct, this.health, this.family, this.parse := ct, health, family, parse;
      storage := new NftElementStorage();
      serviceChanges := new ServiceChangeTracker();
      endpointsChanges := new EndpointSliceCache(node);
      servicesSynced, slicesSynced := false, false;
      svcPortMap, endpointsMap, nodeLabels := map[], map[], None;
      needFullSync, staleChains, flushed := true, map[], false;
      services, live, synced, used, order := map[], map[], map[], map[], [];
      new;
      hide Inv, ServiceRulesPlain, BaseUnreferenced, Closed;
      InitialInv(View(), cfg, node);
    }

    /** The loop over service ports: nothing is refused, and the kernel state it leads to is `LoopState`. */
    method WriteServices(tryPartial: bool, updated: set<NamespacedName>, scores: map<string, ScoreMap>, tx: seq<Op>,
                         ghost plans: Plans, ghost use: UsedScores, ghost skipped: set<ServicePortName>,
                         ghost k0: Kernel, ghost base: Kernel)
      returns (tx': seq<Op>, active: set<Chain>, activeSets: set<SetName>, ghost k': Kernel,
               ghost visited: seq<ServicePortName>, ghost anew: set<ServicePortName>)
      requires plans == PlansOf(svcPortMap, endpointsMap, nodeLabels, cfg) && PlansOK(plans)
      requires forall n :: n in svcPortMap ==> UniqueAddresses(ListOf(endpointsMap, n))
      requires skipped == set n | n in plans && tryPartial && n.nn !in updated
      requires plans.Keys <= use.Keys && forall n :: n in plans && n !in skipped ==> use[n] == FetchedScores(scores, n)
      requires Run(k0, tx) == Some(base) && storage.InSync(base.elements) && BaseReady(base, plans, use, cfg, skipped)
      requires forall n :: n in skipped ==> plans[n].OwnChains() <= base.chains.Keys
      modifies storage
      ensures Run(k0, tx') == Some(k') && LoopState(k', base, plans, use, cfg, visited, anew)
      ensures Visits(visited, plans) && plans.Keys == anew + skipped
      ensures VisitedActive(plans, visited, active, activeSets)
      ensures storage.Writing(k'.elements, AllElements(plans, visited))
    {
      hide *;
      tx', active, activeSets, k', visited, anew := tx, {}, {}, base, [], {};
      LoopEntry(storage, base, plans, use, cfg);
      PlanKeys(svcPortMap, endpointsMap, nodeLabels, cfg);
      var rest := svcPortMap.Keys;
      while rest != {}
        invariant rest <= svcPortMap.Keys == plans.Keys
        invariant forall n :: n in visited <==> n in plans && n !in rest
        invariant forall i, j :: 0 <= i < j < |visited| ==> visited[i] != visited[j]
        invariant anew == (plans.Keys - rest) - skipped
        invariant LoopState(k', base, plans, use, cfg, visited, anew)
        invariant VisitedActive(plans, visited, active, activeSets)
        invariant storage.Writing(k'.elements, AllElements(plans, visited))
        invariant Run(k0, tx') == Some(k')
      {
        var n :| n in rest;
        var svc := svcPortMap[n];
        var eps := if n in endpointsMap then endpointsMap[n] else [];
        var cluster, local, all, hasEndpoints := CategorizeEndpoints(eps, svc, LabelsOf(nodeLabels), cfg.gates);
        var p := Plan(n, svc, cluster, local, hasEndpoints);
        PlanAt(svcPortMap, endpointsMap, nodeLabels, cfg, n);
        var skip := tryPartial && n.nn !in updated;
        var sc := FetchedScores(scores, n);
        BeforeIteration(k', base, plans, use, cfg, visited, anew, active, activeSets, n, skip, skipped);
        AfterIteration(k', base, plans, use, cfg, visited, anew, active, activeSets, n, skip, sc);
        tx', active, activeSets, k' := WriteService(storage, p, all, cfg, sc, skip, tx', active, activeSets, k0, k',
                                                    AllElements(plans, visited));
        visited := visited + [n];
        anew := if skip then anew else anew + {n};
        rest := rest - {n};
      }
      VisitedEach(visited, plans);
    }

    /** The updates of both maps, which come first and are not undone when the rules cannot be written. */
    method UpdateMaps() returns (updated: set<NamespacedName>, reports: Reports)
      requires Valid()
      modifies this`svcPortMap, this`endpointsMap, this`synced, serviceChanges, endpointsChanges
      ensures View() == old(View()).(synced := services, items := map[], svcPortMap := svcPortMap,
                                     trackers := CheckedOut(old(endpointsChanges.trackers)), endpointsMap :=
                                                   endpointsMap)
      ensures MapsUpdated(old(View()), View(), node)
      ensures updated == Updated(old(View()))
      ensures KeptOutside(old(View()), View(), updated)
      ensures TrackersInv(View(), node)
      ensures AppliedAgree(node, old(endpointsChanges.trackers)) ==>
                ReportsHold(old(svcPortMap), svcPortMap, old(endpointsMap), endpointsMap, reports)
    {
      hide AppliedAgree, Tracks, UnionOf, Follows, GroupsApplied, GroupsLive, KernelInv, SyncedInv, AllPrintable,
        NamedByKey, CheckedOut, ReportsExact, Agreeing, ClusterIPsOf, KeptOutside;
      ghost var s := View();
      var updatedSvcs, deletedIPs, updatedEps, deleted, newlyActive;
      svcPortMap, updatedSvcs, deletedIPs := serviceChanges.ApplyTo(svcPortMap, synced, services);
      synced := services;
      endpointsMap, updatedEps, deleted, newlyActive := endpointsChanges.UpdateEndpointsMap(endpointsMap, live);
      updated := updatedSvcs + updatedEps;
      reports := Reports(deletedIPs, newlyActive, deleted);
      ViewKept(s, View(), updatedSvcs, updatedEps);
    }

    /** Chains that have been stale for more than a second are deleted, in a transaction that may fail. */
    method DeleteStaleChains(now: int, deleteOk: bool, ghost s: State)
      requires nft.Valid() && KernelInv(nft.kernel, staleChains.Keys) && s.kernel == nft.kernel
      requires s.staleChains == staleChains
      modifies this`staleChains, nft
      ensures nft.Valid() && KernelInv(nft.kernel, staleChains.Keys)
      ensures nft.kernel == AfterDeletion(s, now, deleteOk)
      ensures staleChains == map c | c in s.staleChains && s.staleChains[c] >= now - SECOND :: s.staleChains[c]
    {
      hide Closed, ServiceRulesPlain, BaseUnreferenced, ChainReferenced, Run, AfterDeletion;
      if |staleChains| > 0 {
        var tx, stale';
        ghost var k';
        tx, stale', k' := DeleteOldChains(staleChains, now, SECOND, nft.kernel);
        DeletionKeepsKernelInv(nft.kernel, staleChains.Keys, staleChains.Keys - stale'.Keys);
        assert staleChains.Keys - (staleChains.Keys - stale'.Keys) == stale'.Keys;
        staleChains := stale';
        nft.RunTransaction(tx, deleteOk);
        DeletionIs(s, nft.kernel, staleChains, now, deleteOk);
      } else {
        NothingStale(s, now, deleteOk);
      }
    }

    /** A full sync starts from a freshly set-up table, a partial one from what is there. */
    method PrepareTable(tryPartial: bool, ghost plans: Plans, ghost use: UsedScores,
                        ghost skipped: set<ServicePortName>)
      returns (tx: seq<Op>, ghost base: Kernel)
      requires ServiceRulesPlain(nft.kernel) && BaseUnreferenced(nft.kernel) && plans.Keys <= use.Keys
      requires if tryPartial
               then storage.InSync(nft.kernel.elements) && BaseReady(nft.kernel, plans, use, cfg, skipped)
               else skipped == {}
      modifies storage, this`flushed
      ensures Run(nft.kernel, tx) == Some(base) && storage.InSync(base.elements)
      ensures BaseReady(base, plans, use, cfg, skipped)
      ensures GrownFrom(base, nft.kernel) && (tryPartial ==> base == nft.kernel)
    {
      hide ServiceRulesPlain, BaseUnreferenced, BaseReady, SetUp, Pictures, GrownFrom;
      tx, base := [], nft.kernel;
      GrownFromSelf(base);
      if !tryPartial {
        tx, base := SetupNFTables(storage, flushed, cfg, tx, nft.kernel, base);
        flushed := true;
        SetUpReady(base, nft.kernel, plans, use, cfg);
      }
    }

    /** After the loop: flush stale chains, delete stale affinity sets and leftover elements. */
    method FinishTransaction(active: set<Chain>, activeSets: set<SetName>, now: int, tx: seq<Op>,
                             ghost plans: Plans, ghost use: UsedScores, ghost skipped: set<ServicePortName>,
                             ghost base: Kernel, ghost k: Kernel,
                             ghost visited: seq<ServicePortName>, ghost anew: set<ServicePortName>)
      returns (tx': seq<Op>, ghost k': Kernel)
      requires nft.Valid() && StaleUnreferenced(nft.kernel, staleChains.Keys)
      requires PlansOK(plans) && Run(nft.kernel, tx) == Some(k) && GrownFrom(base, nft.kernel)
      requires LoopState(k, base, plans, use, cfg, visited, anew) && BaseReady(base, plans, use, cfg, skipped)
      requires Visits(visited, plans) && plans.Keys == anew + skipped
      requires VisitedActive(plans, visited, active, activeSets)
      requires storage.Writing(k.elements, AllElements(plans, visited))
      modifies storage, this`staleChains
      ensures Run(nft.kernel, tx') == Some(k') && Installed(k', plans, use, visited, cfg)
      ensures storage.InSync(k'.elements)
      ensures StaleNoted(k', nft.kernel, plans, staleChains, now)
    {
      hide *;
      NftNames(nft);
      ghost var stale, staleSets := StaleOf(nft.chains, active), StaleSetsOf(nft.sets, activeSets);
      LoopDone(k, base, nft.kernel, plans, use, cfg, visited, anew, skipped, active, activeSets, stale, staleSets, now);
      StaleExist(nft.kernel, staleChains.Keys);
      tx', staleChains, k' := FlushStaleChains(nft.chains, active, staleChains, now, tx, nft.kernel, k);
      tx', k' := DeleteStaleSets(nft.sets, activeSets, tx', nft.kernel, k');
      tx', k' := storage.CleanupLeftoverKeys(tx', nft.kernel, k', base.elements, AllElements(plans, visited));
    }

    /** The whole transaction of a sync, full or partial. */
    method WriteRules(tryPartial: bool, updated: set<NamespacedName>, scores: map<string, ScoreMap>, now: int,
                      ghost use: UsedScores)
      returns (tx: seq<Op>, ghost k: Kernel, ghost visited: seq<ServicePortName>)
      requires nft.Valid() && KernelInv(nft.kernel, staleChains.Keys)
      requires ReadyToWrite(nft.kernel, svcPortMap, endpointsMap, nodeLabels, cfg, tryPartial, updated, scores, use)
      requires tryPartial ==> storage.InSync(nft.kernel.elements)
      modifies storage, this`staleChains, this`flushed
      ensures Run(nft.kernel, tx) == Some(k)
      ensures Installed(k, PlansOf(svcPortMap, endpointsMap, nodeLabels, cfg), use, visited, cfg)
      ensures storage.InSync(k.elements)
      ensures StaleNoted(k, nft.kernel, PlansOf(svcPortMap, endpointsMap, nodeLabels, cfg), staleChains, now)
    {
      hide *;
      KernelInvParts(nft.kernel, staleChains.Keys);
      ghost var plans := PlansOf(svcPortMap, endpointsMap, nodeLabels, cfg);
      ghost var skipped := set n | n in plans && tryPartial && n.nn !in updated;
      WhatIsReady(nft.kernel, svcPortMap, endpointsMap, nodeLabels, cfg, tryPartial, updated, scores, use);
      ghost var base, anew;
      var active, activeSets;
      tx, base := PrepareTable(tryPartial, plans, use, skipped);
      tx, active, activeSets, k, visited, anew := WriteServices(tryPartial, updated, scores, tx, plans, use, skipped,
                                                                nft.kernel, base);
      tx, k := FinishTransaction(active, activeSets, now, tx, plans, use, skipped, base, k, visited, anew);
    }

    /** Everything a sync does before it writes rules. */
    method PrepareSync(scores: map<string, ScoreMap>, now: int, deleteOk: bool, ghost s: State, ghost input: SyncInput)
      returns (updated: set<NamespacedName>, reports: Reports, ghost s1: State, ghost use: UsedScores)
      requires Valid() && s == View() && input.now == now && input.deleteOk == deleteOk
      modifies this`svcPortMap, this`endpointsMap, this`synced, this`staleChains, serviceChanges, endpointsChanges, nft
      ensures nft.Valid() && KernelInv(nft.kernel, staleChains.Keys) && nft.kernel == AfterDeletion(s, now, deleteOk)
      ensures MapsUpdated(s, s1, node) && View() == s1.(staleChains := staleChains, kernel := nft.kernel)
      ensures use == UsedAfter(s, StatePlans(s1, cfg), FetchedFor(svcPortMap, scores))
      ensures ReadyToWrite(nft.kernel, svcPortMap, endpointsMap, nodeLabels, cfg, !needFullSync, updated, scores, use)
      ensures !needFullSync ==> storage.InSync(nft.kernel.elements)
      ensures AppliedAgree(node, s.trackers) ==>
                ReportsHold(s.svcPortMap, svcPortMap, s.endpointsMap, endpointsMap, reports)
    {
      hide *;
      ViewFields();
      ValidParts();
      InvSplit(s, cfg, node);
      updated, reports := UpdateMaps();
      s1 := View();
      ViewFields();
      DeleteStaleChains(now, deleteOk, s);
      use := UsedAfter(s, StatePlans(s1, cfg), FetchedFor(svcPortMap, scores));
      SyncReady(s, s1, nft.kernel, updated, scores, use, now, deleteOk, cfg, node);
      ViewFields();
      if !needFullSync {
        storage.SyncedRecord(nft.kernel.elements);
      }
    }

    method RunRules(tx: seq<Op>, ok: bool)
      requires nft.Valid() && Run(nft.kernel, tx).Some?
      modifies nft
      ensures nft.Valid()
      ensures View() == old(View()).(kernel := if ok then Run(old(nft.kernel), tx).value else old(nft.kernel))
    {
      hide Run, Nft.Valid;
      nft.RunTransaction(tx, ok);
    }

    method MarkCommitted(ghost use: UsedScores, ghost visited: seq<ServicePortName>)
      modifies this`needFullSync, this`used, this`order
      ensures View() == old(View()).(needFullSync := false, used := use, order := visited)
    {
      needFullSync := false;
      used, order := use, visited;
    }

    method MarkFailed()
      modifies this`needFullSync, this`staleChains
      ensures View() == old(View()).(needFullSync := true, staleChains := map[])
    {
      staleChains := map[];
      needFullSync := true;
    }

    /** The transaction succeeds and everything is in step, or it fails and a full sync is due. */
    method CommitRules(tx: seq<Op>, commitOk: bool, ghost s: State, ghost s1: State, ghost k: Kernel,
                       ghost use: UsedScores, ghost input: SyncInput)
      requires Inv(s, cfg, node) && s.servicesSynced && s.slicesSynced && MapsUpdated(s, s1, node)
      requires input.commitOk == commitOk
      requires nft.Valid() && endpointsChanges.node == node && Closed(nft.kernel)
      requires nft.kernel == AfterDeletion(s, input.now, input.deleteOk)
      requires View() == s1.(staleChains := staleChains, record := storage.elements,
                             leftoverKeys := storage.leftoverKeys, kernel := nft.kernel)
      requires use == UsedAfter(s, StatePlans(s1, cfg), input.fetched)
      requires Run(nft.kernel, tx) == Some(k) && Installed(k, StatePlans(s1, cfg), use, input.order, cfg)
      requires Pictures(storage.elements, k.elements) && storage.leftoverKeys == storage.elements.Keys
      requires StaleNoted(k, nft.kernel, StatePlans(s1, cfg), staleChains, input.now)
      modifies this`needFullSync, this`staleChains, this`used, this`order, nft
      ensures Valid() && Step(s, Sync(input), View(), cfg, node)
    {
      hide *;
      ghost var kd := nft.kernel;
      RunRules(tx, commitOk);
      if commitOk {
        MarkCommitted(use, input.order);
        Committed(s, s1, kd, tx, View(), input, use, cfg, node);
      } else {
        MarkFailed();
        Failed(s, s1, kd, View(), input, cfg, node);
      }
      InvStep(s, Sync(input), View(), cfg, node);
      ValidFrom();
    }

    /** The part of a sync that ends with the attempt to write the rules. */
    method SyncRules(scores: map<string, ScoreMap>, now: int, deleteOk: bool, commitOk: bool, ghost s: State)
      returns (reports: Reports, ghost input: SyncInput)
      requires Valid() && s == View() && servicesSynced && slicesSynced
      modifies Objects()
      ensures Valid() && Step(s, Sync(input), View(), cfg, node)
      ensures input.now == now && input.deleteOk == deleteOk && input.commitOk == commitOk
      ensures input.fetched == FetchedFor(svcPortMap, scores)
      ensures AppliedAgree(node, s.trackers) ==>
                ReportsHold(s.svcPortMap, svcPortMap, s.endpointsMap, endpointsMap, reports)
    {
      hide Inv, Step, KernelInv, MapsUpdated, UsedAfter, PlansOf, AfterDeletion, FetchedFor, Run, Installed, StaleNoted,
        Pictures, ReadyToWrite,
        AppliedAgree, ReportsHold;
      input := SyncInput(map[], now, deleteOk, commitOk, []);
      var tryPartial := !needFullSync;
      var updated;
      ghost var s1, use;
      updated, reports, s1, use := PrepareSync(scores, now, deleteOk, s, input);
      KernelInvParts(nft.kernel, staleChains.Keys);
      input := input.(fetched := FetchedFor(svcPortMap, scores));
      var tx;
      ghost var k, visited;
      tx, k, visited := WriteRules(tryPartial, updated, scores, now, use);
      input := input.(order := visited);
      CommitRules(tx, commitOk, s, s1, k, use, input);
    }

    /**
     `syncProxyRules`: one sync step, with the scores the WAO load balancer just computed. After a
     committed transaction the health server is told and stale conntrack entries are cleaned.
     */
    method SyncProxyRules(scores: map<string, ScoreMap>, now: int, deleteOk: bool, commitOk: bool)
      returns (ghost input: SyncInput, ghost reports: Reports)
      requires Valid() && health.Valid()
      modifies Objects(), ct, health
      ensures Valid() && health.Valid()
      ensures input.now == now && input.deleteOk == deleteOk && input.commitOk == commitOk
      ensures Step(old(View()), Sync(input), View(), cfg, node)
      ensures old(servicesSynced && slicesSynced) ==>
                forall n :: n in svcPortMap ==> n in input.fetched && ScoredAs(scores, n, input.fetched[n])
      ensures commitOk && old(servicesSynced && slicesSynced) ==> ScoresUsed(old(View()), View(), scores)
      ensures var done := commitOk && old(servicesSynced && slicesSynced);
              && ct.flows == (if done then Cleared(old(ct.flows),
                                                   Issued(parse, svcPortMap, reports) - ct.failing) else old(ct.flows))
              && health.calls == old(health.calls) + (if done then [Health.Updated(family, now)] else [])
      ensures AppliedAgree(node, old(endpointsChanges.trackers)) && old(servicesSynced && slicesSynced) ==>
                ReportsHold(old(svcPortMap), svcPortMap, old(endpointsMap), endpointsMap, reports)
    {
      hide Inv, Step, FetchedFor, AppliedAgree, ReportsHold, Cleared, Issued, Health.Reflects, ScoredAs, ScoresUsed;
      ghost var s := View();
      if !(servicesSynced && slicesSynced) {
        input, reports := SyncInput(map[], now, deleteOk, commitOk, []), Reports({}, [], []);
        NotInitialized(s, input, cfg, node);
        return;
      }
      var r: Reports;
      r, input := SyncRules(scores, now, deleteOk, commitOk, s);
      FetchedAre(svcPortMap, scores);
      reports := r;
      if commitOk {
        UsesScores(s, View(), input, scores, cfg, node);
        health.Update(family, now);
        CleanStaleEntries(ct, parse, svcPortMap, r);
      }
    }

    method OnServiceUpdate(nn: NamespacedName, previous: Option<Service>, current: Option<Service>)
      returns (pending: bool)
      requires Valid() && previous == Lookup(services, nn) && (previous.Some? || current.Some?)
      requires current.Some? ==> current.value.nn == nn && current.value.PrintableIPs()
      modifies this`services, serviceChanges
      ensures Valid() && Step(old(View()), ServiceEvent(nn, current), View(), cfg, node)
      ensures pending == (serviceChanges.items != map[])
    {
      hide Tracks, UnionOf, Follows, GroupsApplied, KernelInv, SyncedInv, AllPrintable, ServiceMap, Recorded;
      ghost var s := View();
      pending := serviceChanges.Update(previous, current, synced, services);
      services := Observe(services, nn, current);
      InvStep(s, ServiceEvent(nn, current), View(), cfg, node);
    }

    method OnEndpointSliceUpdate(slice: EndpointSlice, remove: bool) returns (changed: bool)
      requires Valid()
      modifies this`live, endpointsChanges
      ensures Valid() && Step(old(View()), SliceEvent(slice, remove), View(), cfg, node)
      ensures !changed ==> forall nn :: LiveSlices(live, nn) == LiveSlices(old(live), nn)
    {
      hide Tracks, UnionOf, Follows, GroupsApplied, KernelInv, SyncedInv, AllPrintable, EventRecorded, ObserveSlice,
        LiveSlices, DataChanged;
      ghost var s := View();
      changed := endpointsChanges.EndpointSliceUpdate(slice, remove, live);
      live := ObserveSlice(live, slice, remove);
      InvStep(s, SliceEvent(slice, remove), View(), cfg, node);
    }

    method OnNodeUpdate(labels: Option<Labels>)
      requires Valid()
      modifies this`nodeLabels, this`needFullSync
      ensures Valid() && Step(old(View()), NodeEvent(labels), View(), cfg, node)
    {
      hide Inv;
      ghost var s := View();
      if nodeLabels != labels {
        nodeLabels := Some(LabelsOf(labels));
        needFullSync := true;
      }
      InvStep(s, NodeEvent(labels), View(), cfg, node);
    }

    method OnNodeDelete()
      requires Valid()
      modifies this`nodeLabels, this`needFullSync
      ensures Valid() && Step(old(View()), NodeDeleted, View(), cfg, node)
    {
      hide Inv;
      ghost var s := View();
      nodeLabels := None;
      needFullSync := true;
      InvStep(s, NodeDeleted, View(), cfg, node);
    }

    method OnServiceSynced()
      requires Valid()
      modifies this`servicesSynced
      ensures Valid() && Step(old(View()), ServicesSynced, View(), cfg, node)
    {
      hide Inv;
      ghost var s := View();
      servicesSynced := true;
      InvStep(s, ServicesSynced, View(), cfg, node);
    }

    method OnEndpointSlicesSynced()
      requires Valid()
      modifies this`slicesSynced
      ensures Valid() && Step(old(View()), SlicesSynced, View(), cfg, node)
    {
      hide Inv;
      ghost var s := View();
      slicesSynced := true;
      InvStep(s, SlicesSynced, View(), cfg, node);
    }
  }

  lemma VisitedEach(visited: seq<ServicePortName>, plans: Plans)
    requires forall n :: n in visited <==> n in plans
    requires forall i, j :: 0 <= i < j < |visited| ==> visited[i] != visited[j]
    ensures Visits(visited, plans)
  {
  }

  lemma PlanKeys(sm: ServicePortMap, em: EndpointsMap, labels: Option<Labels>, cfg: Config)
    ensures PlansOf(sm, em, labels, cfg).Keys == sm.Keys
  {
  }

  lemma PlanAt(sm: ServicePortMap, em: EndpointsMap, labels: Option<Labels>, cfg: Config, n: ServicePortName)
    requires n in sm
    ensures ListOf(em, n) == if n in em then em[n] else []
    ensures PlansOf(sm, em, labels, cfg)[n] ==
            Plan(n, sm[n], ClusterEndpoints(ListOf(em, n), sm[n], LabelsOf(labels), cfg.gates),
                 LocalEndpoints(ListOf(em, n), sm[n]), HasUsable(ListOf(em, n)))
  {
  }
}
