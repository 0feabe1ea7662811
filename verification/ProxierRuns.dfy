/**
 The proxier as a state machine over service, slice and node events, traffic and syncs, and what
 holds after every successful sync of every run. Class Proxier is proved to take these steps.
 */
module ProxierRuns {
  import opened ProxyTypes
  import opened Nftables
  import opened RuleCompiler
  import opened ElementStorage
  import opened SyncState
  import opened ServiceTracker
  import opened EndpointSlices
  import opened EndpointTracker

  type Labels = map<string, string>

  /** `services` and `live` are the cluster's objects as last observed; the rest is the proxier and the kernel. */
  datatype State = State(
    services: Services,
    live: Live,
    servicesSynced: bool,
    slicesSynced: bool,
    synced: Services,
    items: Items,
    svcPortMap: ServicePortMap,
    trackers: Trackers,
    endpointsMap: EndpointsMap,
    nodeLabels: Option<Labels>,
    needFullSync: bool,
    staleChains: map<Chain, int>,
    record: map<Stored, ElementValue>,
    leftoverKeys: set<Stored>,
    kernel: Kernel,
    used: UsedScores,
    order: seq<ServicePortName>)

  /** A Go map value: `None` is the nil map, which `reflect.DeepEqual` tells from an empty one. */
  function LabelsOf(labels: Option<Labels>): Labels {
    if labels.Some? then labels.value else map[]
  }

  function PlansOf(sm: ServicePortMap, em: EndpointsMap, labels: Option<Labels>, cfg: Config): Plans {
    map n | n in sm :: MakePlan(n, sm[n], ListOf(em, n), LabelsOf(labels), cfg.gates)
  }

  function StatePlans(s: State, cfg: Config): Plans {
    PlansOf(s.svcPortMap, s.endpointsMap, s.nodeLabels, cfg)
  }

  ghost predicate AllPrintable(services: Services) {
    forall nn :: nn in services ==> services[nn].PrintableIPs()
  }

  // ---- The invariant ----

  ghost predicate TrackersInv(s: State, node: Node) {
    && NamedByKey(s.synced) && NamedByKey(s.services) && AllPrintable(s.synced) && AllPrintable(s.services)
    && Tracks(s.items, s.synced, s.services)
    && UnionOf(s.svcPortMap, s.synced)
    && Follows(s.trackers, s.live)
    && GroupsApplied(s.endpointsMap, node, s.trackers)
  }

  /** Chains waiting to be deleted exist and nothing refers to them. */
  ghost predicate StaleUnreferenced(k: Kernel, stale: set<Chain>) {
    forall c :: c in stale ==> !c.Stock? && c in k.chains && !ChainReferenced(k, c)
  }

  ghost predicate KernelInv(k: Kernel, stale: set<Chain>) {
    Closed(k) && ServiceRulesPlain(k) && BaseUnreferenced(k) && StaleUnreferenced(k, stale)
  }

  /** While no full sync is pending the kernel is exactly what the maps ask for, and the record mirrors it. */
  ghost predicate SyncedInv(s: State, cfg: Config) {
    !s.needFullSync ==>
      && Installed(s.kernel, StatePlans(s, cfg), s.used, s.order, cfg)
      && Pictures(s.record, s.kernel.elements) && s.leftoverKeys == s.record.Keys
      && (forall c :: c in s.staleChains ==> !Active(StatePlans(s, cfg), c))
  }

  ghost predicate Inv(s: State, cfg: Config, node: Node) {
    TrackersInv(s, node) && KernelInv(s.kernel, s.staleChains.Keys) && SyncedInv(s, cfg)
  }

  /** A new proxier, over a table that an earlier one may have left behind. */
  ghost predicate Initial(s: State) {
    && s.services == map[] && s.synced == map[] && s.live == map[] && !s.servicesSynced && !s.slicesSynced
    && s.items == map[] && s.svcPortMap == map[] && s.trackers == map[] && s.endpointsMap == map[]
    && s.needFullSync && s.staleChains == map[]
    && Closed(s.kernel) && ServiceRulesPlain(s.kernel) && BaseUnreferenced(s.kernel)
  }

  // ---- Steps ----

  /**
   The inputs of one sync: scores for every service port, time, whether the two transactions
   succeed, and the order of the loop.
   */
  datatype SyncInput = SyncInput(fetched: UsedScores, now: int, deleteOk: bool, commitOk: bool,
                                 order: seq<ServicePortName>)

  datatype Event =
    | ServiceEvent(nn: NamespacedName, current: Option<Service>)
    | SliceEvent(slice: EndpointSlice, remove: bool)
    | NodeEvent(labels: Option<Labels>)
    | NodeDeleted
    | ServicesSynced
    | SlicesSynced
    | Traffic(sets: map<SetName, set<string>>)
    | Sync(input: SyncInput)

  const SECOND: int := 1_000_000_000

  /** The chains a sync deletes first. */
  ghost function OldChains(s: State, now: int): set<Chain> {
    set c | c in s.staleChains && s.staleChains[c] < now - SECOND
  }

  ghost function AfterDeletion(s: State, now: int, ok: bool): Kernel {
    if ok then s.kernel.(chains := s.kernel.chains - OldChains(s, now)) else s.kernel
  }

  /** Services with a change waiting. */
  ghost function Updated(s: State): set<NamespacedName> {
    s.items.Keys + PendingServices(s.trackers)
  }

  /** The service ports whose chains a sync leaves alone. */
  ghost function Skipped(s: State, plans: Plans): set<ServicePortName> {
    set n | n in plans && !s.needFullSync && n.nn !in Updated(s)
  }

  ghost function UsedAfter(s: State, plans: Plans, fetched: UsedScores): UsedScores {
    map n | n in plans ::
      if n in Skipped(s, plans) && n in s.used then s.used[n] else if n in fetched then fetched[n] else None
  }

  /** The maps are brought up to date and the trackers emptied, whether or not the rules can be written. */
  ghost predicate MapsUpdated(s: State, s': State, node: Node) {
    && s'.services == s.services && s'.live == s.live
    && s'.synced == s.services && s'.items == map[]
    && UnionOf(s'.svcPortMap, s.services)
    && s'.trackers == CheckedOut(s.trackers)
    && GroupsApplied(s'.endpointsMap, node, s'.trackers)
    && s'.nodeLabels == s.nodeLabels && s'.servicesSynced == s.servicesSynced && s'.slicesSynced == s.slicesSynced
    && (forall n: ServicePortName :: n.nn !in PendingServices(s.trackers) ==>
          ListOf(s'.endpointsMap, n) == ListOf(s.endpointsMap, n))
  }

  ghost predicate RulesCommitted(s: State, s': State, input: SyncInput, cfg: Config) {
    var plans := StatePlans(s', cfg);
    && s'.used == UsedAfter(s, plans, input.fetched)
    && s'.order == input.order
    && Installed(s'.kernel, plans, s'.used, input.order, cfg)
    && Pictures(s'.record, s'.kernel.elements) && s'.leftoverKeys == s'.record.Keys
    && !s'.needFullSync
    && s'.staleChains == (map c | c in s'.kernel.chains && !c.Stock? && !Active(plans, c) :: input.now)
    && (forall c: Chain :: !c.Stock? && !Active(plans, c) ==>
          (c in s'.kernel.chains <==> c in AfterDeletion(s, input.now, input.deleteOk).chains))
    && MembersKept(s'.kernel.sets, s.kernel.sets)
    && Closed(s'.kernel)
  }

  ghost predicate RulesFailed(s: State, s': State, input: SyncInput) {
    s'.kernel == AfterDeletion(s, input.now, input.deleteOk) && s'.needFullSync && s'.staleChains == map[]
  }

  ghost predicate SyncStep(s: State, s': State, input: SyncInput, cfg: Config, node: Node) {
    if !(s.servicesSynced && s.slicesSynced) then s' == s
    else
      && MapsUpdated(s, s', node)
      && (if input.commitOk then RulesCommitted(s, s', input, cfg) else RulesFailed(s, s', input))
  }

  ghost predicate Step(s: State, e: Event, s': State, cfg: Config, node: Node) {
    match e
    case ServiceEvent(nn, current) =>
      && (current.Some? ==> current.value.nn == nn && current.value.PrintableIPs())
      && s' == s.(services := Observe(s.services, nn, current),
                  items := Recorded(s.items, nn, Lookup(s.services, nn), current))
    case SliceEvent(slice, remove) =>
      && s' == s.(live := ObserveSlice(s.live, slice, remove), trackers := s'.trackers)
      && (if slice.supportedAddressType && HasKeys(slice)
          then EventRecorded(s.trackers, s'.trackers, ServiceKey(slice), slice.name, SliceData(slice, remove))
          else s'.trackers == s.trackers)
    case NodeEvent(labels) =>
      s' == if s.nodeLabels == labels then s else s.(nodeLabels := Some(LabelsOf(labels)), needFullSync := true)
    case NodeDeleted => s' == s.(nodeLabels := None, needFullSync := true)
    case ServicesSynced => s' == s.(servicesSynced := true)
    case SlicesSynced => s' == s.(slicesSynced := true)
    case Traffic(sets) =>
      && sets.Keys == s.kernel.sets.Keys
      && (NodePortIPs in sets ==> sets[NodePortIPs] == s.kernel.sets[NodePortIPs])
      && s' == s.(kernel := s.kernel.(sets := sets))
    case Sync(input) => SyncStep(s, s', input, cfg, node)
  }

  // ---- Plans are well formed ----

  lemma ListsUnique(em: EndpointsMap, node: Node, trackers: Trackers, n: ServicePortName)
    requires GroupsApplied(em, node, trackers)
    ensures UniqueAddresses(ListOf(em, n))
  {
    hide Offers, AppliedSlices;
    if n in em {
      assert Grouping(Restrict(em, n.nn), Offers(node, n.nn, AppliedSlices(TrackerOf(trackers, n.nn))));
      assert n in Restrict(em, n.nn);
      SortedUnique(em[n]);
    }
  }

  lemma PlansOfOK(sm: ServicePortMap, em: EndpointsMap, labels: Option<Labels>, cfg: Config, services: Services,
                  node: Node, trackers: Trackers)
    requires NamedByKey(services) && AllPrintable(services) && UnionOf(sm, services)
    requires GroupsApplied(em, node, trackers)
    ensures PlansOK(PlansOf(sm, em, labels, cfg))
  {
    forall n | n in sm
      ensures MakePlan(n, sm[n], ListOf(em, n), LabelsOf(labels), cfg.gates).Consistent()
    {
      PortsNamed(services, n.nn);
      PortsOfService(services, n);
      ListsUnique(em, node, trackers, n);
      hide GroupsApplied, PortsOf;
      MakePlanConsistent(n, sm[n], ListOf(em, n), LabelsOf(labels), cfg.gates);
    }
  }

  lemma PortsOfService(services: Services, n: ServicePortName)
    requires n in PortsOf(services, n.nn)
    ensures n.nn in services
  {
  }

  // ---- Every step keeps the invariant ----

  lemma InitialInv(s: State, cfg: Config, node: Node)
    requires Initial(s)
    ensures Inv(s, cfg, node)
  {
    forall nn
      ensures Grouping(Restrict(s.endpointsMap, nn), Offers(node, nn, AppliedSlices(TrackerOf(s.trackers, nn))))
      ensures ViewOf(TrackerOf(s.trackers, nn)) == LiveSlices(s.live, nn)
    {
    }
  }

  lemma TrackersStep(s: State, e: Event, s': State, cfg: Config, node: Node)
    requires TrackersInv(s, node) && Step(s, e, s', cfg, node)
    ensures TrackersInv(s', node)
  {
    hide Tracks, UnionOf, GroupsApplied, Follows, ServiceTracker.Service.PrintableIPs, RulesCommitted, RulesFailed,
      EventRecorded, ObserveSlice;
    match e
    case ServiceEvent(nn, current) =>
      TracksStep(s.items, s.synced, s.services, nn, Lookup(s.services, nn), current);
    case SliceEvent(slice, remove) =>
      SliceStep(s, slice, remove, s', node);
    case Sync(input) =>
      if s.servicesSynced && s.slicesSynced {
        TracksNothing(s.services);
        CheckedOutFollows(s.trackers, s.live);
      }
    case _ =>
  }

  lemma TracksNothing(services: Services)
    ensures Tracks(map[], services, services)
  {
  }

  lemma SliceStep(s: State, slice: EndpointSlice, remove: bool, s': State, node: Node)
    requires Follows(s.trackers, s.live) && GroupsApplied(s.endpointsMap, node, s.trackers)
    requires s' == s.(live := ObserveSlice(s.live, slice, remove), trackers := s'.trackers)
    requires if slice.supportedAddressType && HasKeys(slice)
             then EventRecorded(s.trackers, s'.trackers, ServiceKey(slice), slice.name, SliceData(slice, remove))
             else s'.trackers == s.trackers
    ensures Follows(s'.trackers, s'.live) && GroupsApplied(s'.endpointsMap, node, s'.trackers)
  {
    if slice.supportedAddressType && HasKeys(slice) {
      FollowsStep(s.trackers, s'.trackers, s.live, slice, remove);
      SameApplied(s.endpointsMap, node, s.trackers, s'.trackers);
    }
  }

  lemma SameApplied(em: EndpointsMap, node: Node, trackers: Trackers, trackers': Trackers)
    requires GroupsApplied(em, node, trackers)
    requires forall nn :: TrackerOf(trackers', nn).applied == TrackerOf(trackers, nn).applied
    ensures GroupsApplied(em, node, trackers')
  {
    hide Grouping, Offers;
    forall nn
      ensures Grouping(Restrict(em, nn), Offers(node, nn, AppliedSlices(TrackerOf(trackers', nn))))
    {
      assert Grouping(Restrict(em, nn), Offers(node, nn, AppliedSlices(TrackerOf(trackers, nn))));
      assert AppliedSlices(TrackerOf(trackers', nn)) == AppliedSlices(TrackerOf(trackers, nn));
    }
  }

  /** Chains deleted while nothing refers to them leave no dangling reference. */
  lemma DeletionKeepsKernelInv(k: Kernel, stale: set<Chain>, gone: set<Chain>)
    requires KernelInv(k, stale) && gone <= stale
    ensures KernelInv(k.(chains := k.chains - gone), stale - gone)
  {
    var k' := k.(chains := k.chains - gone);
    forall d, i | d in k'.chains && 0 <= i < |k'.chains[d]|
      ensures RuleResolves(k', k'.chains[d][i])
    {
      assert RuleResolves(k, k.chains[d][i]);
      forall c | RuleTargets(k'.chains[d][i], c)
        ensures c in k'.chains
      {
        assert ChainReferenced(k, c);
      }
    }
    forall s | s in k'.elements && k'.elements[s].GotoChain?
      ensures k'.elements[s].chain in k'.chains
    {
      assert ChainReferenced(k, k.elements[s].chain);
    }
    forall c | c in stale - gone
      ensures !ChainReferenced(k', c)
    {
      assert !ChainReferenced(k, c);
      assert forall d :: d in k'.chains ==> k'.chains[d] == k.chains[d];
    }
  }

  lemma SetContentsIrrelevant(k: Kernel, sets: map<SetName, set<string>>, stale: set<Chain>)
    requires KernelInv(k, stale) && sets.Keys == k.sets.Keys
    ensures KernelInv(k.(sets := sets), stale)
  {
    var k' := k.(sets := sets);
    forall d, i | d in k'.chains && 0 <= i < |k'.chains[d]|
      ensures RuleResolves(k', k'.chains[d][i])
    {
      assert RuleResolves(k, k.chains[d][i]);
    }
    forall c | c in stale
      ensures !ChainReferenced(k', c)
    {
      assert !ChainReferenced(k, c);
    }
  }

  /** Referential closure in every reachable state, and stale chains stay free of references. */
  lemma KernelStep(s: State, e: Event, s': State, cfg: Config, node: Node)
    requires Inv(s, cfg, node) && Step(s, e, s', cfg, node)
    ensures KernelInv(s'.kernel, s'.staleChains.Keys)
  {
    hide KernelInv, TrackersInv, SyncedInv, Step;
    match e
    case Traffic(sets) =>
      TrafficIs(s, sets, s', cfg, node);
      SetContentsIrrelevant(s.kernel, sets, s.staleChains.Keys);
    case Sync(input) =>
      SyncKernelInv(s, input, s', cfg, node);
    case _ =>
      KernelUntouched(s, e, s', cfg, node);
  }

  lemma TrafficIs(s: State, sets: map<SetName, set<string>>, s': State, cfg: Config, node: Node)
    requires Step(s, Traffic(sets), s', cfg, node)
    ensures s' == s.(kernel := s.kernel.(sets := sets)) && sets.Keys == s.kernel.sets.Keys
  {
  }

  /** Events other than traffic and syncs leave the kernel alone. */
  lemma KernelUntouched(s: State, e: Event, s': State, cfg: Config, node: Node)
    requires Step(s, e, s', cfg, node) && !e.Traffic? && !e.Sync?
    ensures s'.kernel == s.kernel && s'.staleChains == s.staleChains
  {
    hide EventRecorded, ServiceTracker.Service.PrintableIPs, Recorded, ObserveSlice;
  }

  lemma SyncKernelInv(s: State, input: SyncInput, s': State, cfg: Config, node: Node)
    requires KernelInv(s.kernel, s.staleChains.Keys) && Step(s, Sync(input), s', cfg, node)
    ensures KernelInv(s'.kernel, s'.staleChains.Keys)
  {
    hide KernelInv, MapsUpdated, RulesCommitted, RulesFailed;
    if s.servicesSynced && s.slicesSynced {
      if input.commitOk {
        CommittedKernelInv(s, s', input, cfg);
      } else {
        FailedKernelInv(s, s', input);
      }
    }
  }

  lemma FailedKernelInv(s: State, s': State, input: SyncInput)
    requires KernelInv(s.kernel, s.staleChains.Keys) && RulesFailed(s, s', input)
    ensures KernelInv(s'.kernel, s'.staleChains.Keys)
  {
    hide Closed, ServiceRulesPlain, ChainReferenced, BaseUnreferenced;
    DeletionKeepsKernelInv(s.kernel, s.staleChains.Keys, OldChains(s, input.now));
  }

  lemma CommittedKernelInv(s: State, s': State, input: SyncInput, cfg: Config)
    requires RulesCommitted(s, s', input, cfg)
    ensures KernelInv(s'.kernel, s'.staleChains.Keys)
  {
    hide Installed, PlansOf, Closed, ServiceRulesPlain, ChainReferenced, Active, UsedAfter, BaseUnreferenced,
      MembersKept;
    var plans := StatePlans(s', cfg);
    InstalledPlain(s'.kernel, plans, s'.used, s'.order, cfg);
    InstalledBaseUnreferenced(s'.kernel, plans, s'.used, s'.order, cfg);
    forall c | c in s'.staleChains
      ensures !c.Stock? && c in s'.kernel.chains && !ChainReferenced(s'.kernel, c)
    {
      InactiveUnreferenced(s'.kernel, plans, s'.used, s'.order, cfg, c);
    }
  }

  lemma InstalledTraffic(k: Kernel, sets: map<SetName, set<string>>, plans: Plans, used: UsedScores,
                         order: seq<ServicePortName>, cfg: Config)
    requires Installed(k, plans, used, order, cfg) && sets.Keys == k.sets.Keys
    requires NodePortIPs in sets ==> sets[NodePortIPs] == k.sets[NodePortIPs]
    ensures Installed(k.(sets := sets), plans, used, order, cfg)
  {
    hide PlansOK, Visits, Puts, AllElements, StockRules, RuleCompiler.Plan.WantRules, Active, ActiveSet;
  }

  lemma SyncedStep(s: State, e: Event, s': State, cfg: Config, node: Node)
    requires SyncedInv(s, cfg) && Step(s, e, s', cfg, node)
    ensures SyncedInv(s', cfg)
  {
    hide Installed, PlansOf, MapsUpdated, EventRecorded, Pictures, UsedAfter, Active;
    match e
    case Traffic(sets) =>
      if !s.needFullSync {
        InstalledTraffic(s.kernel, sets, StatePlans(s, cfg), s.used, s.order, cfg);
      }
    case _ =>
  }

  lemma InvStep(s: State, e: Event, s': State, cfg: Config, node: Node)
    requires Inv(s, cfg, node) && Step(s, e, s', cfg, node)
    ensures Inv(s', cfg, node)
  {
    hide TrackersInv, SyncedInv, Step, KernelInv;
    assert TrackersInv(s, node) && SyncedInv(s, cfg);
    TrackersStep(s, e, s', cfg, node);
    KernelStep(s, e, s', cfg, node);
    SyncedStep(s, e, s', cfg, node);
  }

  // ---- Runs ----

  ghost predicate IsRun(states: seq<State>, events: seq<Event>, cfg: Config, node: Node) {
    && |states| == |events| + 1
    && Initial(states[0])
    && forall i :: 0 <= i < |events| ==> Step(states[i], events[i], states[i + 1], cfg, node)
  }

  /** The invariant holds throughout every run. */
  lemma {:induction false} RunInv(states: seq<State>, events: seq<Event>, cfg: Config, node: Node, i: nat)
    requires IsRun(states, events, cfg, node) && i < |states|
    ensures Inv(states[i], cfg, node)
  {
    hide Initial, Step, Inv;
    if i == 0 {
      InitialInv(states[0], cfg, node);
    } else {
      RunInv(states, events, cfg, node, i - 1);
      InvStep(states[i - 1], events[i - 1], states[i], cfg, node);
    }
  }

  /** A sync that was attempted and whose transaction went through. */
  ghost predicate SuccessfulSync(s: State, e: Event) {
    e.Sync? && e.input.commitOk && s.servicesSynced && s.slicesSynced
  }

  // ---- When chains go ----

  /**
   A sync takes away a service chain only if it has been noted stale for more than a second, and it
   takes away every such chain unless it is in use again or the deletion fails. What a committed sync
   leaves unused it notes stale as of now.
   */
  lemma StaleChainsGo(s: State, s': State, input: SyncInput, cfg: Config, node: Node, c: Chain)
    requires Inv(s, cfg, node) && SyncStep(s, s', input, cfg, node) && s.servicesSynced && s.slicesSynced
    requires !c.Stock? && c in s.kernel.chains
    ensures c !in s'.kernel.chains ==> c in s.staleChains && input.now - s.staleChains[c] > 1_000_000_000
    ensures c in s.staleChains && input.now - s.staleChains[c] > 1_000_000_000 && input.deleteOk ==>
              Active(StatePlans(s', cfg), c) || c !in s'.kernel.chains
    ensures input.commitOk && c in s'.kernel.chains && !Active(StatePlans(s', cfg), c) ==>
              c in s'.staleChains && s'.staleChains[c] == input.now && s'.kernel.chains[c] == []
  {
    hide MapsUpdated, PlansOf, UsedAfter, Pictures, Active, Closed, MembersKept, KernelInv, TrackersInv, SyncedInv;
    if input.commitOk {
      InstalledChains(s'.kernel, StatePlans(s', cfg), s'.used, s'.order, cfg, c);
      hide Installed;
    }
  }

  lemma InstalledChains(k: Kernel, plans: Plans, used: UsedScores, order: seq<ServicePortName>, cfg: Config, c: Chain)
    requires Installed(k, plans, used, order, cfg) && !c.Stock?
    ensures Active(plans, c) ==> c in k.chains
    ensures c in k.chains && !Active(plans, c) ==> k.chains[c] == []
  {
    hide Active, PlansOK, Visits, Puts, AllElements, StockRules, RuleCompiler.Plan.WantRules, ActiveSet;
  }

  // ---- Which scores a sync uses ----

  /**
   Scores are kept under namespace, slash, service name and, unless the port has no name, a colon
   and the port name.
   */
  ghost predicate IsKeyOf(key: string, n: ServicePortName) {
    if n.port == "" then key == n.nn.ns + "/" + n.nn.name else key == n.nn.ns + "/" + n.nn.name + ":" + n.port
  }

  /** The scores kept for the service port, or none if there are none under its key. */
  ghost predicate ScoredAs(scores: map<string, ScoreMap>, n: ServicePortName, sc: Option<ScoreMap>) {
    forall key :: IsKeyOf(key, n) ==>
      (key in scores ==> sc == Some(scores[key])) && (key !in scores ==> sc == None)
  }

  /** No full sync is due, and neither the service nor its slices have a change waiting. */
  ghost predicate Rests(s: State, n: ServicePortName) {
    !s.needFullSync && n.nn !in s.items && (n.nn in s.trackers ==> s.trackers[n.nn].pending == map[])
  }

  /** A committed sync gives every service port the scores just fetched, or leaves it those it had if it rests. */
  lemma CommittedUses(s: State, s': State, input: SyncInput, cfg: Config, node: Node, n: ServicePortName)
    requires Inv(s, cfg, node) && s.servicesSynced && s.slicesSynced && input.commitOk
    requires SyncStep(s, s', input, cfg, node) && n in s'.svcPortMap && n in input.fetched
    ensures n in s'.used
    ensures Rests(s, n) ==> n in s.used && s'.used[n] == s.used[n]
    ensures !Rests(s, n) ==> s'.used[n] == input.fetched[n]
  {
    hide Installed, Pictures, Active, GroupsApplied, CheckedOut, KernelInv, Follows, MakePlan, ListOf;
    var plans := StatePlans(s', cfg);
    assert n in Skipped(s, plans) <==> Rests(s, n);
    if Rests(s, n) {
      RestingStays(s, s', n, node);
      assert n in StatePlans(s, cfg);
      InstalledUsed(s.kernel, StatePlans(s, cfg), s.used, s.order, cfg);
    }
  }

  lemma InstalledUsed(k: Kernel, plans: Plans, used: UsedScores, order: seq<ServicePortName>, cfg: Config)
    requires Installed(k, plans, used, order, cfg)
    ensures plans.Keys <= used.Keys
  {
  }

  lemma RestingStays(s: State, s': State, n: ServicePortName, node: Node)
    requires TrackersInv(s, node) && MapsUpdated(s, s', node) && Rests(s, n) && n in s'.svcPortMap
    ensures n in s.svcPortMap && s.svcPortMap[n] == s'.svcPortMap[n]
  {
    hide GroupsApplied, CheckedOut, Follows, ServiceMap, PendingServices, ListOf, AllPrintable, NamedByKey;
    assert ServiceMap(Lookup(s.synced, n.nn)) == ServiceMap(Lookup(s.services, n.nn));
  }

  const EMPTY_KERNEL := Kernel(map[], {}, map[], map[])

  /**
   `z'` is what a full sync over an empty table makes of the cluster objects of `s`, visiting the
   service ports in the given order and giving each the scores it is recorded with.
   */
  ghost predicate FromScratch(s: State, z: State, z': State, order: seq<ServicePortName>, used: UsedScores, now: int,
                              cfg: Config, node: Node) {
    && Inv(z, cfg, node) && z.needFullSync && z.kernel == EMPTY_KERNEL
    && z.services == s.services && z.live == s.live && z.nodeLabels == s.nodeLabels
    && z.servicesSynced && z.slicesSynced
    && SyncStep(z, z', SyncInput(used, now, true, true, order), cfg, node)
  }

  /** The endpoint lists are those of the live slices. */
  lemma ListsOfLive(s: State, s': State, node: Node)
    requires Follows(s.trackers, s.live) && MapsUpdated(s, s', node)
    ensures GroupsLive(s'.endpointsMap, node, s'.live)
  {
    CheckedOutFollows(s.trackers, s.live);
    hide Follows, GroupsApplied, UnionOf, CheckedOut;
    GroupsAreLive(s'.endpointsMap, node, s'.trackers, s'.live);
  }

  lemma LiveListsUnique(a: EndpointsMap, b: EndpointsMap, node: Node, live: Live)
    requires GroupsLive(a, node, live) && GroupsLive(b, node, live)
    requires forall nn :: Agreeing(Offers(node, nn, LiveSlices(live, nn)))
    ensures a == b
  {
    hide Offers, Grouping, Agreeing;
    forall n: ServicePortName
      ensures (n in a <==> n in b) && (n in a ==> a[n] == b[n])
    {
      assert Grouping(Restrict(a, n.nn), Offers(node, n.nn, LiveSlices(live, n.nn)));
      assert Grouping(Restrict(b, n.nn), Offers(node, n.nn, LiveSlices(live, n.nn)));
      GroupingUnique(Restrict(a, n.nn), Restrict(b, n.nn), Offers(node, n.nn, LiveSlices(live, n.nn)));
      assert n in a <==> n in Restrict(a, n.nn);
      assert n in b <==> n in Restrict(b, n.nn);
    }
  }

  /** A partial sync leaves exactly what a full sync from scratch would. */
  lemma SyncEqualsScratch(s: State, s': State, input: SyncInput, z: State, z': State, now: int, cfg: Config, node: Node)
    requires Inv(s, cfg, node) && input.commitOk && s.servicesSynced && s.slicesSynced
    requires SyncStep(s, s', input, cfg, node)
    requires forall nn :: Agreeing(Offers(node, nn, LiveSlices(s.live, nn)))
    requires FromScratch(s, z, z', input.order, s'.used, now, cfg, node)
    ensures StatePlans(z', cfg) == StatePlans(s', cfg)
    ensures ReachablePart(s'.kernel, StatePlans(s', cfg)) == ReachablePart(z'.kernel, StatePlans(s', cfg))
  {
    hide Offers, Agreeing, Installed, PlansOf, KernelInv, SyncedInv, UnionOf, GroupsLive, Follows, GroupsApplied,
      Pictures;
    UnionUnique(s'.svcPortMap, z'.svcPortMap, s.services);
    ListsOfLive(s, s', node);
    ListsOfLive(z, z', node);
    LiveListsUnique(s'.endpointsMap, z'.endpointsMap, node, s.live);
    ScratchScores(s, s', z, input, cfg);
    InstalledDetermines(s'.kernel, z'.kernel, StatePlans(s', cfg), s'.used, input.order, cfg);
  }

  lemma ScratchScores(s: State, s': State, z: State, input: SyncInput, cfg: Config)
    requires z.needFullSync && s'.used == UsedAfter(s, StatePlans(s', cfg), input.fetched)
    ensures UsedAfter(z, StatePlans(s', cfg), s'.used) == s'.used
  {
    hide PlansOf;
  }

  /** The service chains that nothing uses. */
  ghost function InactiveChains(k: Kernel, plans: Plans): set<Chain> {
    set c | c in k.chains && !c.Stock? && !Active(plans, c)
  }

  /** The same sets, with every affinity set emptied. */
  ghost function Emptied(sets: map<SetName, set<string>>): map<SetName, set<string>> {
    map s | s in sets :: if s.AffinitySet? then {} else sets[s]
  }

  /** What is left of a table without the chains that nothing uses and without affinities. */
  ghost function Bare(k: Kernel, plans: Plans): Kernel {
    k.(chains := k.chains - InactiveChains(k, plans), sets := Emptied(k.sets))
  }

  /** What is installed is still installed, and closed, in the bare table. */
  lemma InstalledBare(k: Kernel, plans: Plans, used: UsedScores, order: seq<ServicePortName>, cfg: Config)
    requires Installed(k, plans, used, order, cfg) && Closed(k)
    ensures Installed(Bare(k, plans), plans, used, order, cfg) && Closed(Bare(k, plans))
    ensures forall c: Chain :: !c.Stock? && !Active(plans, c) ==> c !in Bare(k, plans).chains
    ensures MembersKept(Bare(k, plans).sets, map[])
  {
    hide Installed, Active, ChainReferenced, Closed, ServiceRulesPlain, BaseUnreferenced;
    var gone := InactiveChains(k, plans);
    InstalledPlain(k, plans, used, order, cfg);
    InstalledBaseUnreferenced(k, plans, used, order, cfg);
    forall c | c in gone
      ensures !ChainReferenced(k, c)
    {
      InactiveUnreferenced(k, plans, used, order, cfg, c);
    }
    DeletionKeepsKernelInv(k, gone, gone);
    InstalledWithout(k, plans, used, order, cfg, gone);
    var k1 := k.(chains := k.chains - gone);
    SetContentsIrrelevant(k1, Emptied(k.sets), gone - gone);
    InstalledTraffic(k1, Emptied(k.sets), plans, used, order, cfg);
  }

  /** There is always a full sync from scratch to compare with. */
  lemma ScratchExists(s: State, s': State, input: SyncInput, now: int, cfg: Config, node: Node)
    returns (z: State, z': State)
    requires Inv(s, cfg, node) && input.commitOk && s.servicesSynced && s.slicesSynced
    requires SyncStep(s, s', input, cfg, node)
    ensures FromScratch(s, z, z', input.order, s'.used, now, cfg, node)
  {
    hide Inv, MapsUpdated, RulesCommitted, Bare, PlansOf;
    z := s.(needFullSync := true, kernel := EMPTY_KERNEL, staleChains := map[]);
    z' := s'.(kernel := Bare(s'.kernel, StatePlans(s', cfg)), staleChains := map[]);
    BareStart(s, z, cfg, node);
    SameMaps(s, s', z, z', node);
    BareCommitted(s, s', z, z', input, now, cfg);
  }

  lemma BareStart(s: State, z: State, cfg: Config, node: Node)
    requires Inv(s, cfg, node) && z == s.(needFullSync := true, kernel := EMPTY_KERNEL, staleChains := map[])
    ensures Inv(z, cfg, node)
  {
    hide UnionOf, GroupsApplied, Follows, Tracks, AllPrintable, NamedByKey, PlansOf, Installed;
  }

  lemma SameMaps(s: State, s': State, z: State, z': State, node: Node)
    requires MapsUpdated(s, s', node)
    requires z == s.(needFullSync := z.needFullSync, kernel := z.kernel, staleChains := z.staleChains)
    requires z' == s'.(kernel := z'.kernel, staleChains := z'.staleChains)
    ensures MapsUpdated(z, z', node)
  {
    hide UnionOf, GroupsApplied, CheckedOut, PendingServices, ListOf;
  }

  lemma BareCommitted(s: State, s': State, z: State, z': State, input: SyncInput, now: int, cfg: Config)
    requires RulesCommitted(s, s', input, cfg)
    requires z == s.(needFullSync := true, kernel := EMPTY_KERNEL, staleChains := map[])
    requires z' == s'.(kernel := Bare(s'.kernel, StatePlans(s', cfg)), staleChains := map[])
    ensures RulesCommitted(z, z', SyncInput(s'.used, now, true, true, input.order), cfg)
  {
    hide Installed, PlansOf, Pictures, Active, InactiveChains, Closed, UsedAfter, MembersKept, Emptied;
    InstalledBare(s'.kernel, StatePlans(s', cfg), s'.used, input.order, cfg);
    ScratchScores(s, s', z, input, cfg);
    assert forall c :: c !in AfterDeletion(z, now, true).chains;
  }

  /**
   Partial sync refines full sync, over every run: after each successful sync the chains, verdict
   elements and affinity sets that packets can reach are those of a full sync from scratch over the
   latest services, slices and node labels.
   */
  lemma PartialSyncRefinesFullSync(states: seq<State>, events: seq<Event>, cfg: Config, node: Node, i: nat, z: State,
                                   z': State, now: int)
    requires IsRun(states, events, cfg, node) && i < |events| && SuccessfulSync(states[i], events[i])
    requires forall nn :: Agreeing(Offers(node, nn, LiveSlices(states[i].live, nn)))
    requires FromScratch(states[i], z, z', events[i].input.order, states[i + 1].used, now, cfg, node)
    ensures ReachablePart(states[i + 1].kernel, StatePlans(states[i + 1], cfg)) ==
              ReachablePart(z'.kernel, StatePlans(z', cfg))
    ensures UnionOf(states[i + 1].svcPortMap, states[i].services)
    ensures GroupsLive(states[i + 1].endpointsMap, node, states[i].live)
  {
    hide Inv, FromScratch, Agreeing, Offers, Initial, RulesCommitted;
    RunInv(states, events, cfg, node, i);
    InvParts(states[i], cfg, node);
    SyncEqualsScratch(states[i], states[i + 1], events[i].input, z, z', now, cfg, node);
    ListsOfLive(states[i], states[i + 1], node);
  }

  lemma InvParts(s: State, cfg: Config, node: Node)
    requires Inv(s, cfg, node)
    ensures Follows(s.trackers, s.live) && Closed(s.kernel)
    ensures !s.needFullSync ==> Pictures(s.record, s.kernel.elements) && s.leftoverKeys == s.record.Keys
  {
  }

  /**
   Referential closure throughout every run: no rule or element ever names a chain, set or
   container that is not there.
   */
  lemma RunClosed(states: seq<State>, events: seq<Event>, cfg: Config, node: Node, i: nat)
    requires IsRun(states, events, cfg, node) && i < |states|
    ensures Closed(states[i].kernel)
    ensures StaleUnreferenced(states[i].kernel, states[i].staleChains.Keys)
    ensures !states[i].needFullSync ==>
              Pictures(states[i].record, states[i].kernel.elements) && states[i].leftoverKeys == states[i].record.Keys
  {
    RunInv(states, events, cfg, node, i);
    hide IsRun, Closed, StaleUnreferenced, Pictures, TrackersInv, Installed;
  }
}
