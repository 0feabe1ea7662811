/** The objects a run knows are those of the latest events about them. */
module Histories {
  import opened ProxyTypes
  import opened Nftables
  import opened RuleCompiler
  import opened ElementStorage
  import opened SyncState
  import opened ServiceTracker
  import opened EndpointSlices
  import opened EndpointTracker
  import opened ProxierRuns

  // ---- Services ----

  ghost predicate AboutService(e: Event, nn: NamespacedName) {
    e.ServiceEvent? && e.nn == nn
  }

  /** The latest of the first `i` events about the service is number `m`. */
  ghost predicate LatestAbout(events: seq<Event>, i: int, nn: NamespacedName, m: int) {
    0 <= m < i <= |events| && AboutService(events[m], nn) && forall j :: m < j < i ==> !AboutService(events[j], nn)
  }

  lemma ServicesStep(s: State, e: Event, s': State, cfg: Config, node: Node, nn: NamespacedName)
    requires Step(s, e, s', cfg, node)
    ensures AboutService(e, nn) ==>
              (nn in s'.services <==> e.current.Some?) && (nn in s'.services ==> s'.services[nn] == e.current.value)
    ensures !AboutService(e, nn) ==>
              (nn in s'.services <==> nn in s.services) && (nn in s.services ==> s'.services[nn] == s.services[nn])
  {
    hide EventRecorded, ServiceTracker.Service.PrintableIPs, Recorded, ObserveSlice, RulesCommitted, RulesFailed,
      UnionOf,
      GroupsApplied, CheckedOut;
  }

  /** A service is known exactly if the latest event about it did not delete it, and then as that event says. */
  lemma {:induction false} ServicesAreLatest(states: seq<State>, events: seq<Event>, cfg: Config, node: Node, i: nat,
                                             nn: NamespacedName)
    requires IsRun(states, events, cfg, node) && i < |states|
    ensures nn in states[i].services <==> exists m :: LatestAbout(events, i, nn, m) && events[m].current.Some?
    ensures forall m :: nn in states[i].services && LatestAbout(events, i, nn, m) ==>
              events[m].current == Some(states[i].services[nn])
  {
    hide Step, Inv;
    if i > 0 {
      var before, e := i - 1, events[i - 1];
      hide Initial;
      ServicesAreLatest(states, events, cfg, node, before, nn);
      ServicesStep(states[before], e, states[i], cfg, node, nn);
      if AboutService(e, nn) {
        assert LatestAbout(events, i, nn, before);
      } else {
        assert forall m :: LatestAbout(events, i, nn, m) <==> LatestAbout(events, before, nn, m);
      }
    }
  }

  // ---- Slices ----

  /** The event is about the slice of this name of the service; slices without these three names are nobody's. */
  ghost predicate AboutSlice(e: Event, nn: NamespacedName, name: string) {
    && e.SliceEvent? && e.slice.supportedAddressType
    && e.slice.ns == nn.ns && e.slice.serviceName == nn.name && e.slice.name == name
    && nn.ns != "" && nn.name != "" && name != ""
  }

  ghost predicate LatestSlice(events: seq<Event>, i: int, nn: NamespacedName, name: string, m: int) {
    && 0 <= m < i <= |events| && AboutSlice(events[m], nn, name)
    && forall j :: m < j < i ==> !AboutSlice(events[j], nn, name)
  }

  /** The slice of this name, if the service has one. */
  ghost function SliceOf(s: State, nn: NamespacedName, name: string): Option<EndpointSlice> {
    if nn in s.live && name in s.live[nn] then Some(s.live[nn][name]) else None
  }

  lemma SlicesStep(s: State, e: Event, s': State, cfg: Config, node: Node, nn: NamespacedName, name: string)
    requires Step(s, e, s', cfg, node)
    ensures SliceOf(s', nn, name) ==
              if AboutSlice(e, nn, name) then (if e.remove then None else Some(e.slice)) else SliceOf(s, nn, name)
  {
    hide EventRecorded, ServiceTracker.Service.PrintableIPs, Recorded, RulesCommitted, RulesFailed, UnionOf,
      GroupsApplied, CheckedOut;
  }

  /** A slice is live exactly if the latest event about it did not remove it, and then as that event says. */
  lemma {:induction false} SlicesAreLatest(states: seq<State>, events: seq<Event>, cfg: Config, node: Node, i: nat,
                                           nn: NamespacedName, name: string)
    requires IsRun(states, events, cfg, node) && i < |states|
    ensures SliceOf(states[i], nn, name).Some? <==>
              exists m :: LatestSlice(events, i, nn, name, m) && !events[m].remove
    ensures forall m :: LatestSlice(events, i, nn, name, m) && !events[m].remove ==>
              SliceOf(states[i], nn, name) == Some(events[m].slice)
  {
    hide Step, Inv;
    if i > 0 {
      var before, e := i - 1, events[i - 1];
      hide Initial, SliceOf;
      SlicesAreLatest(states, events, cfg, node, before, nn, name);
      SlicesStep(states[before], e, states[i], cfg, node, nn, name);
      if AboutSlice(e, nn, name) {
        assert LatestSlice(events, i, nn, name, before);
      } else {
        assert forall m :: LatestSlice(events, i, nn, name, m) <==> LatestSlice(events, before, nn, name, m);
      }
    }
  }

  // ---- Node labels ----

  ghost predicate AboutNode(e: Event) { e.NodeEvent? || e.NodeDeleted? }

  lemma LabelsStep(s: State, e: Event, s': State, cfg: Config, node: Node)
    requires Step(s, e, s', cfg, node)
    ensures LabelsOf(s'.nodeLabels) ==
              if e.NodeEvent? then (if e.labels.Some? then e.labels.value else map[])
              else if e.NodeDeleted? then map[] else LabelsOf(s.nodeLabels)
  {
    hide EventRecorded, ServiceTracker.Service.PrintableIPs, Recorded, ObserveSlice, RulesCommitted, RulesFailed,
      UnionOf,
      GroupsApplied, CheckedOut;
  }

  /** The labels are those of the latest event about the node. */
  lemma {:induction false} LabelsAreLatest(states: seq<State>, events: seq<Event>, cfg: Config, node: Node, i: nat,
                                           m: nat)
    requires IsRun(states, events, cfg, node) && m < i < |states| && AboutNode(events[m])
    requires forall j :: m < j < i ==> !AboutNode(events[j])
    ensures LabelsOf(states[i].nodeLabels) ==
              if events[m].NodeEvent? && events[m].labels.Some? then events[m].labels.value else map[]
  {
    hide Step, Inv, Initial;
    var before := i - 1;
    LabelsStep(states[before], events[before], states[i], cfg, node);
    if m < before {
      LabelsAreLatest(states, events, cfg, node, before, m);
    }
  }

  // ---- Nothing is written too early ----

  /** Both informers have reported that their first listing is complete. */
  ghost predicate Informed(events: seq<Event>, i: nat)
    requires i <= |events|
  {
    && (exists j :: 0 <= j < i && events[j].ServicesSynced?)
    && (exists j :: 0 <= j < i && events[j].SlicesSynced?)
  }

  lemma FlagsStep(s: State, e: Event, s': State, cfg: Config, node: Node)
    requires Step(s, e, s', cfg, node)
    ensures s'.servicesSynced <==> s.servicesSynced || e.ServicesSynced?
    ensures s'.slicesSynced <==> s.slicesSynced || e.SlicesSynced?
  {
    hide EventRecorded, ServiceTracker.Service.PrintableIPs, Recorded, Observe, ObserveSlice, RulesCommitted,
      RulesFailed,
      UnionOf, GroupsApplied, CheckedOut, PendingServices, ListOf;
  }

  lemma KernelKept(s: State, e: Event, s': State, cfg: Config, node: Node)
    requires Step(s, e, s', cfg, node) && !(s.servicesSynced && s.slicesSynced)
    ensures s'.kernel.chains == s.kernel.chains && s'.kernel.elements == s.kernel.elements
    ensures s'.kernel.sets.Keys == s.kernel.sets.Keys
  {
    if !e.Traffic? && !e.Sync? {
      hide Step;
      KernelUntouched(s, e, s', cfg, node);
    }
  }

  lemma {:induction false} FlagsAre(states: seq<State>, events: seq<Event>, cfg: Config, node: Node, i: nat)
    requires IsRun(states, events, cfg, node) && i < |states|
    ensures states[i].servicesSynced <==> exists j :: 0 <= j < i && events[j].ServicesSynced?
    ensures states[i].slicesSynced <==> exists j :: 0 <= j < i && events[j].SlicesSynced?
  {
    hide Step, Inv;
    if i > 0 {
      var before := i - 1;
      hide Initial;
      FlagsAre(states, events, cfg, node, before);
      FlagsStep(states[before], events[before], states[i], cfg, node);
    }
  }

  /** Until both have, no sync touches the chains, elements or sets that were there at the start. */
  lemma {:induction false} UntouchedUntilInformed(states: seq<State>, events: seq<Event>, cfg: Config, node: Node,
                                                  i: nat)
    requires IsRun(states, events, cfg, node) && 0 < i < |states| && !Informed(events, i - 1)
    ensures states[i].kernel.chains == states[0].kernel.chains
    ensures states[i].kernel.elements == states[0].kernel.elements
    ensures states[i].kernel.sets.Keys == states[0].kernel.sets.Keys
  {
    hide Step, Inv, Initial;
    var before := i - 1;
    FlagsAre(states, events, cfg, node, before);
    KernelKept(states[before], events[before], states[i], cfg, node);
    if before > 0 {
      UntouchedUntilInformed(states, events, cfg, node, before);
    }
  }

  /** From then on every sync whose transaction goes through leaves no full sync pending. */
  lemma InformedSyncsWrite(states: seq<State>, events: seq<Event>, cfg: Config, node: Node, i: nat)
    requires IsRun(states, events, cfg, node) && i < |events| && Informed(events, i)
    requires events[i].Sync? && events[i].input.commitOk
    ensures !states[i + 1].needFullSync && SuccessfulSync(states[i], events[i])
  {
    FlagsAre(states, events, cfg, node, i);
    hide Initial, MapsUpdated, Installed, PlansOf, UsedAfter, Pictures, Active, Closed, MembersKept, AfterDeletion;
    assert Step(states[i], events[i], states[i + 1], cfg, node);
  }
}
