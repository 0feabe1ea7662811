/** What becomes of packets, said by the Service and EndpointSlice objects alone. */
module Promises {
  import opened ProxyTypes
  import opened Topology
  import opened Nftables
  import opened RuleCompiler
  import opened SyncState
  import opened ServiceTracker
  import opened EndpointSlices
  import opened EndpointTracker
  import opened ProxierRuns
  import opened Frontends
  import opened Packets
  import opened PacketMeaning
  import opened PacketRuns
  import opened PacketShares

  // ---- Services ----

  /** The packet is for an address of the service with this port, or for the port's node port. */
  ghost predicate ForPort(svc: Service, port: PortSpec, cfg: Config, env: Env, pkt: Packet) {
    && pkt.protocol == port.protocol
    && (|| (pkt.dport == port.port
            && (pkt.daddr == svc.clusterIP || pkt.daddr in svc.externalIPs || pkt.daddr in svc.loadBalancerVIPs))
        || (port.nodePort != 0 && pkt.dport == port.nodePort && AcceptsNodePorts(cfg, env, pkt.daddr)))
  }

  /** The traffic policy for where the packet was sent keeps it on this node. */
  ghost predicate KeptHere(svc: Service, port: PortSpec, cfg: Config, env: Env, pkt: Packet) {
    if pkt.daddr == svc.clusterIP && pkt.dport == port.port then svc.internalPolicyLocal
    else svc.externalPolicyLocal && !(cfg.localDetector && env.fromPod) && pkt.saddr !in env.local
  }

  /** The packet is for a load-balancer address, and the source ranges do not admit its sender. */
  ghost predicate ShutOut(svc: Service, port: PortSpec, cfg: Config, pkt: Packet) {
    && pkt.dport == port.port && pkt.daddr in svc.loadBalancerVIPs && svc.loadBalancerSourceRanges != []
    && (forall i :: 0 <= i < |svc.loadBalancerSourceRanges| ==> pkt.saddr !in svc.loadBalancerSourceRanges[i].members)
    && (pkt.saddr in svc.loadBalancerVIPs ==>
          forall i :: 0 <= i < |svc.loadBalancerSourceRanges| ==>
            cfg.nodeIP !in svc.loadBalancerSourceRanges[i].members)
  }

  /** The two readings of a service port agree. */
  lemma CarriedOver(info: ServicePort, svc: Service, port: PortSpec, cfg: Config, env: Env, pkt: Packet)
    requires Carries(info, svc, port)
    ensures KeptHere(svc, port, cfg, env, pkt) <==> MustStayLocal(info, cfg, env, pkt)
    ensures ShutOut(svc, port, cfg, pkt) <==> Barred(info, cfg, pkt)
  {
  }

  lemma PortClaims(s: State, n: ServicePortName, svc: Service, port: PortSpec, cfg: Config, env: Env, pkt: Packet)
    requires n in s.svcPortMap && Carries(s.svcPortMap[n], svc, port) && ForPort(svc, port, cfg, env, pkt)
    ensures Claims(StatePlans(s, cfg), n, cfg, env, pkt)
  {
    hide PlansOf, AcceptsNodePorts;
    PlanService(s, cfg, n);
  }

  // ---- Slices ----

  predicate IsReadyEntry(ep: SliceEndpoint) { ep.ready != Some(false) }

  predicate IsDrainingEntry(ep: SliceEndpoint) { ep.serving != Some(false) && ep.terminating == Some(true) }

  /** Some entry of the port, on this node if asked for, is ready. */
  ghost predicate AnyReady(slices: Slices, node: Node, n: ServicePortName, here: bool) {
    exists ip, port, ep :: ListedAs(slices, node, n, ip, port, ep) && IsReadyEntry(ep) && (here ==> Here(node, ep))
  }

  /** Some entry of the port, on this node if asked for, is ready or still serves while it terminates. */
  ghost predicate AnyUsable(slices: Slices, node: Node, n: ServicePortName, here: bool) {
    exists ip, port, ep ::
      && ListedAs(slices, node, n, ip, port, ep) && (IsReadyEntry(ep) || IsDrainingEntry(ep))
      && (here ==> Here(node, ep))
  }

  /** Hints of the entry count. */
  ghost predicate Hinted(node: Node, ep: SliceEndpoint, zone: string) {
    node.topologyAwareHints && zone in ep.zones
  }

  /** Traffic is kept in the node's zone: that is asked for, every ready entry has hints, and one is for the zone. */
  ghost predicate ZoneKept(slices: Slices, node: Node, n: ServicePortName, hints: string, labels: map<string, string>,
                           gates: Gates) {
    && (|| gates.serviceTrafficDistribution
        || (gates.topologyAwareHints && hints != "" && hints != "disabled" && hints != "Disabled"))
    && "topology.kubernetes.io/zone" in labels && labels["topology.kubernetes.io/zone"] != ""
    && (forall ip, port, ep :: ListedAs(slices, node, n, ip, port, ep) && IsReadyEntry(ep) ==>
          node.topologyAwareHints && ep.zones != [])
    && (exists ip, port, ep :: && ListedAs(slices, node, n, ip, port, ep) && IsReadyEntry(ep)
                               && Hinted(node, ep, labels["topology.kubernetes.io/zone"]))
  }

  /** The entry is one the packet may go to: ready, in the zone and on the node if it is kept there, else draining. */
  ghost predicate MayReceive(ep: SliceEndpoint, slices: Slices, node: Node, n: ServicePortName, hints: string,
                             labels: map<string, string>, gates: Gates, here: bool) {
    && (here ==> Here(node, ep))
    && if AnyReady(slices, node, n, here)
       then && IsReadyEntry(ep)
            && (!here && ZoneKept(slices, node, n, hints, labels, gates) ==>
                  Hinted(node, ep, labels["topology.kubernetes.io/zone"]))
       else IsDrainingEntry(ep)
  }

  /** The list and the entries of the port speak of the same addresses in the same way. */
  ghost predicate Mirrors(eps: seq<Endpoint>, slices: Slices, node: Node, n: ServicePortName) {
    && (forall e :: e in eps ==> exists ep :: ListedAs(slices, node, n, e.ip, e.port, ep))
    && (forall e, ep :: e in eps && ListedAs(slices, node, n, e.ip, e.port, ep) ==>
          Describes(node, ep, e) && (e.isLocal <==> Here(node, ep)))
    && (forall ip, port, ep :: ListedAs(slices, node, n, ip, port, ep) ==> Has(eps, ip, port))
  }

  ghost predicate Has(eps: seq<Endpoint>, ip: string, port: nat) {
    exists e :: e in eps && e.ip == ip && e.port == port
  }

  lemma SlicedMirrors(m: EndpointsMap, node: Node, slices: Slices, n: ServicePortName)
    requires AsSliced(m, node, n.nn, slices) && EntriesAgree(slices, node, n.nn)
    ensures Mirrors(ListOf(m, n), slices, node, n)
  {
    hide ListedAs, Here, StrictlySorted;
    var eps := ListOf(m, n);
    forall e, ep | e in eps && ListedAs(slices, node, n, e.ip, e.port, ep)
      ensures Describes(node, ep, e) && (e.isLocal <==> Here(node, ep))
    {
      assert FromEntries(slices, node, n, e);
      var other :| ListedAs(slices, node, n, e.ip, e.port, other) && Describes(node, other, e);
      hide AsSliced;
    }
    forall e | e in eps
      ensures exists ep :: ListedAs(slices, node, n, e.ip, e.port, ep)
    {
      assert FromEntries(slices, node, n, e);
    }
    forall ip, port, ep | ListedAs(slices, node, n, ip, port, ep)
      ensures Has(eps, ip, port)
    {
      assert Appears(m, n, ip, port);
    }
  }

  lemma EntryFor(eps: seq<Endpoint>, slices: Slices, node: Node, n: ServicePortName, e: Endpoint)
    returns (ep: SliceEndpoint)
    requires Mirrors(eps, slices, node, n) && e in eps
    ensures ListedAs(slices, node, n, e.ip, e.port, ep) && Describes(node, ep, e) && (e.isLocal <==> Here(node, ep))
  {
    hide ListedAs, Here;
    ep :| ListedAs(slices, node, n, e.ip, e.port, ep);
    assert Describes(node, ep, e);
  }

  lemma EndpointFor(eps: seq<Endpoint>, slices: Slices, node: Node, n: ServicePortName, ip: string, port: nat,
                    ep: SliceEndpoint)
    returns (e: Endpoint)
    requires Mirrors(eps, slices, node, n) && ListedAs(slices, node, n, ip, port, ep)
    ensures e in eps && e.ip == ip && e.port == port && Describes(node, ep, e) && (e.isLocal <==> Here(node, ep))
  {
    hide ListedAs, Here;
    assert Has(eps, ip, port);
    e :| e in eps && e.ip == ip && e.port == port;
    assert Describes(node, ep, e);
  }

  lemma ReadyMirrored(eps: seq<Endpoint>, slices: Slices, node: Node, n: ServicePortName, here: bool)
    requires Mirrors(eps, slices, node, n)
    ensures AnyReady(slices, node, n, here) <==> exists e :: e in eps && e.ready && (here ==> e.isLocal)
  {
    hide ListedAs, Here, Mirrors;
    if ip, port, ep :| ListedAs(slices, node, n, ip, port, ep) && IsReadyEntry(ep) && (here ==> Here(node, ep)) {
      var e := EndpointFor(eps, slices, node, n, ip, port, ep);
    }
    if e :| e in eps && e.ready && (here ==> e.isLocal) {
      var ep := EntryFor(eps, slices, node, n, e);
      assert IsReadyEntry(ep);
    }
  }

  lemma UsableMirrored(eps: seq<Endpoint>, slices: Slices, node: Node, n: ServicePortName, here: bool)
    requires Mirrors(eps, slices, node, n)
    ensures AnyUsable(slices, node, n, here) <==> exists e :: e in eps && CanServe(e) && (here ==> e.isLocal)
  {
    hide ListedAs, Here, Mirrors;
    if ip, port, ep :| ListedAs(slices, node, n, ip, port, ep) && (IsReadyEntry(ep) || IsDrainingEntry(ep))
                       && (here ==> Here(node, ep)) {
      var e := EndpointFor(eps, slices, node, n, ip, port, ep);
      assert CanServe(e);
    }
    if e :| e in eps && CanServe(e) && (here ==> e.isLocal) {
      var ep := EntryFor(eps, slices, node, n, e);
      assert IsReadyEntry(ep) || IsDrainingEntry(ep);
    }
  }

  lemma ZoneMirrored(eps: seq<Endpoint>, slices: Slices, node: Node, n: ServicePortName, svc: ServicePort,
                     labels: map<string, string>, gates: Gates)
    requires Mirrors(eps, slices, node, n)
    ensures ZoneKept(slices, node, n, svc.hintsAnnotation, labels, gates) <==> KeptInZone(eps, svc, labels, gates)
  {
    hide ListedAs, Here;
    if "topology.kubernetes.io/zone" in labels {
      var zone := labels["topology.kubernetes.io/zone"];
      HintsMirrored(eps, slices, node, n);
      SomeInZone(eps, slices, node, n, zone);
    }
  }

  lemma HasHints(node: Node, ep: SliceEndpoint, e: Endpoint)
    requires Describes(node, ep, e)
    ensures |e.zoneHints| > 0 <==> node.topologyAwareHints && ep.zones != []
  {
    if |e.zoneHints| > 0 {
      var z :| z in e.zoneHints;
    }
    if node.topologyAwareHints && ep.zones != [] {
      assert ep.zones[0] in e.zoneHints;
    }
  }

  lemma HintsMirrored(eps: seq<Endpoint>, slices: Slices, node: Node, n: ServicePortName)
    requires Mirrors(eps, slices, node, n)
    ensures (forall ip, port, ep :: ListedAs(slices, node, n, ip, port, ep) && IsReadyEntry(ep) ==>
               node.topologyAwareHints && ep.zones != []) <==>
            (forall i :: 0 <= i < |eps| && eps[i].ready ==> |eps[i].zoneHints| > 0)
  {
    hide ListedAs, Here, Mirrors;
    if forall i :: 0 <= i < |eps| && eps[i].ready ==> |eps[i].zoneHints| > 0 {
      forall ip, port, ep | ListedAs(slices, node, n, ip, port, ep) && IsReadyEntry(ep)
        ensures node.topologyAwareHints && ep.zones != []
      {
        var e := EndpointFor(eps, slices, node, n, ip, port, ep);
        HasHints(node, ep, e);
      }
    }
    if forall ip, port, ep :: ListedAs(slices, node, n, ip, port, ep) && IsReadyEntry(ep) ==>
                                node.topologyAwareHints && ep.zones != [] {
      forall i | 0 <= i < |eps| && eps[i].ready
        ensures |eps[i].zoneHints| > 0
      {
        var ep := EntryFor(eps, slices, node, n, eps[i]);
        HasHints(node, ep, eps[i]);
      }
    }
  }

  lemma SomeInZone(eps: seq<Endpoint>, slices: Slices, node: Node, n: ServicePortName, zone: string)
    requires Mirrors(eps, slices, node, n)
    ensures (exists ip, port, ep :: && ListedAs(slices, node, n, ip, port, ep) && IsReadyEntry(ep)
                                    && Hinted(node, ep, zone)) <==>
            (exists i :: 0 <= i < |eps| && eps[i].ready && zone in eps[i].zoneHints)
  {
    hide ListedAs, Here, Mirrors;
    if ip, port, ep :| ListedAs(slices, node, n, ip, port, ep) && IsReadyEntry(ep) && Hinted(node, ep, zone) {
      var e := EndpointFor(eps, slices, node, n, ip, port, ep);
      var i :| 0 <= i < |eps| && eps[i] == e;
      assert eps[i].ready && zone in eps[i].zoneHints;
    }
    if i :| 0 <= i < |eps| && eps[i].ready && zone in eps[i].zoneHints {
      var ep := EntryFor(eps, slices, node, n, eps[i]);
      assert IsReadyEntry(ep) && Hinted(node, ep, zone);
    }
  }

  /** An endpoint the packet may be sent to comes from an entry it may go to, and the other way round. */
  lemma ServersMirrored(s: State, cfg: Config, slices: Slices, node: Node, n: ServicePortName, local: bool,
                        e: Endpoint, ep: SliceEndpoint)
    requires n in s.svcPortMap && Mirrors(ListOf(s.endpointsMap, n), slices, node, n)
    requires local ==> s.svcPortMap[n].internalPolicyLocal || (s.svcPortMap[n].externalPolicyLocal
                                                               && Exposed(s.svcPortMap[n]))
    requires !local ==> !s.svcPortMap[n].internalPolicyLocal || Exposed(s.svcPortMap[n])
    requires e in ListOf(s.endpointsMap, n) && Describes(node, ep, e) && (e.isLocal <==> Here(node, ep))
    ensures MayServe(s, cfg, n, local, e) <==>
              MayReceive(ep, slices, node, n, s.svcPortMap[n].hintsAnnotation, LabelsOf(s.nodeLabels), cfg.gates, local)
  {
    hide ListedAs, Here, Mirrors, KeptInZone, ZoneKept, Exposed, ListOf, AnyReady;
    var eps := ListOf(s.endpointsMap, n);
    ReadyMirrored(eps, slices, node, n, local);
    ZoneMirrored(eps, slices, node, n, s.svcPortMap[n], LabelsOf(s.nodeLabels), cfg.gates);
    if KeptInZone(eps, s.svcPortMap[n], LabelsOf(s.nodeLabels), cfg.gates) {
      ZoneKnown(eps, s.svcPortMap[n], LabelsOf(s.nodeLabels), cfg.gates);
    }
  }

  lemma ZoneKnown(eps: seq<Endpoint>, svc: ServicePort, labels: map<string, string>, gates: Gates)
    requires KeptInZone(eps, svc, labels, gates)
    ensures "topology.kubernetes.io/zone" in labels
  {
  }

  // ---- The promise ----

  /** The objects that decide about a packet: the service and its port, the service's slices, the node's labels. */
  datatype Objects = Objects(svc: Service, port: PortSpec, slices: Slices, labels: map<string, string>)

  /**
   A packet for the port is rejected exactly if it is not shut out and no entry is usable; dropped
   exactly if it is shut out, or must stay here while entries are usable but none of them is here; and
   otherwise delivered to an entry it may go to.
   */
  ghost predicate Kept(fate: Fate, o: Objects, n: ServicePortName, cfg: Config, node: Node, env: Env, pkt: Packet) {
    var here, out := KeptHere(o.svc, o.port, cfg, env, pkt), ShutOut(o.svc, o.port, cfg, pkt);
    && (fate == Rejected <==> !out && !AnyUsable(o.slices, node, n, false))
    && (fate == Dropped <==>
          out || (here && AnyUsable(o.slices, node, n, false) && !AnyUsable(o.slices, node, n, true)))
    && (fate.Accepted? ==>
          exists ep :: && ListedAs(o.slices, node, n, fate.daddr, fate.dport, ep)
                       && MayReceive(ep, o.slices, node, n, o.svc.hintsAnnotation, o.labels, cfg.gates, here))
    && fate != Broken
  }

  /** The proxier's state is up to date with these objects. */
  ghost predicate UpToDate(s: State, o: Objects, n: ServicePortName, node: Node) {
    && n in s.svcPortMap && Carries(s.svcPortMap[n], o.svc, o.port) && o.labels == LabelsOf(s.nodeLabels)
    && Mirrors(ListOf(s.endpointsMap, n), o.slices, node, n)
  }

  /** Traffic of a service port uses a list the port keeps. */
  lemma UsesKeptList(info: ServicePort, svc: Service, port: PortSpec, cfg: Config, env: Env, pkt: Packet)
    requires Carries(info, svc, port) && ForPort(svc, port, cfg, env, pkt)
    ensures if KeptHere(svc, port, cfg, env, pkt)
            then info.internalPolicyLocal || (info.externalPolicyLocal && Exposed(info))
            else !info.internalPolicyLocal || Exposed(info)
  {
    hide AcceptsNodePorts;
  }

  lemma PromisedIsKept(fate: Fate, s: State, o: Objects, n: ServicePortName, cfg: Config, node: Node, env: Env,
                       pkt: Packet)
    requires UpToDate(s, o, n, node) && ForPort(o.svc, o.port, cfg, env, pkt) && Promised(fate, s, cfg, n, env, pkt)
    ensures Kept(fate, o, n, cfg, node, env, pkt)
  {
    hide ForPort, Carries, Mirrors, MayServe, MayReceive, KeptHere, ShutOut, MustStayLocal, Barred, CanServe, AnyUsable,
      ListedAs, ListOf, Exposed;
    var info, eps := s.svcPortMap[n], ListOf(s.endpointsMap, n);
    CarriedOver(info, o.svc, o.port, cfg, env, pkt);
    UsableMirrored(eps, o.slices, node, n, false);
    UsableMirrored(eps, o.slices, node, n, true);
    if fate.Accepted? {
      var here := KeptHere(o.svc, o.port, cfg, env, pkt);
      var e :| GoesTo(fate, e) && MayServe(s, cfg, n, here, e);
      ServerIsEntry(s, o, n, cfg, node, env, pkt, e);
    }
  }

  lemma ServerIsEntry(s: State, o: Objects, n: ServicePortName, cfg: Config, node: Node, env: Env, pkt: Packet,
                      e: Endpoint)
    requires UpToDate(s, o, n, node) && ForPort(o.svc, o.port, cfg, env, pkt)
    requires MayServe(s, cfg, n, KeptHere(o.svc, o.port, cfg, env, pkt), e)
    ensures exists ep ::
              && ListedAs(o.slices, node, n, e.ip, e.port, ep)
              && MayReceive(ep, o.slices, node, n, o.svc.hintsAnnotation, o.labels, cfg.gates,
                            KeptHere(o.svc, o.port, cfg, env, pkt))
  {
    var info, eps := s.svcPortMap[n], ListOf(s.endpointsMap, n);
    assert e in eps && info.hintsAnnotation == o.svc.hintsAnnotation;
    hide ForPort, Carries, Mirrors, MayServe, MayReceive, KeptHere, ListedAs, ListOf, Exposed;
    UsesKeptList(info, o.svc, o.port, cfg, env, pkt);
    var ep := EntryFor(eps, o.slices, node, n, e);
    ServersMirrored(s, cfg, o.slices, node, n, KeptHere(o.svc, o.port, cfg, env, pkt), e, ep);
  }

  /** The objects as of the last sync of the maps. */
  ghost predicate AsOfLastSync(s: State, o: Objects, n: ServicePortName, j: int) {
    && Exposes(s.synced, n, j) && o.svc == s.synced[n.nn] && o.port == o.svc.ports[j]
    && o.slices == AppliedSlices(TrackerOf(s.trackers, n.nn)) && o.labels == LabelsOf(s.nodeLabels)
  }

  lemma SyncedIsUpToDate(s: State, o: Objects, n: ServicePortName, j: int, node: Node)
    requires TrackersInv(s, node) && AsOfLastSync(s, o, n, j) && EntriesAgree(o.slices, node, n.nn)
    ensures UpToDate(s, o, n, node)
  {
    assert Grouping(Restrict(s.endpointsMap, n.nn), Offers(node, n.nn, o.slices));
    hide Grouping, Offers, Carries, Mirrors, Tracks, UnionOf, Follows, GroupsApplied, AllPrintable, NamedByKey,
      AsSliced,
      EntriesAgree, AppliedSlices;
    UnionMapsServices(s.svcPortMap, s.synced);
    GroupingIsAsSliced(Restrict(s.endpointsMap, n.nn), node, n.nn, o.slices);
    SlicedMirrors(Restrict(s.endpointsMap, n.nn), node, o.slices, n);
    assert ListOf(Restrict(s.endpointsMap, n.nn), n) == ListOf(s.endpointsMap, n);
  }

  /** In every run, whenever no full sync is pending, packets meet what the objects of the last sync promise. */
  lemma EveryRunKeepsPromises(states: seq<State>, events: seq<Event>, cfg: Config, node: Node, i: nat, env: Env,
                              pkt: Packet, n: ServicePortName, o: Objects, j: int)
    requires IsRun(states, events, cfg, node) && i < |states| && !states[i].needFullSync
    requires AsOfLastSync(states[i], o, n, j) && EntriesAgree(o.slices, node, n.nn)
    requires WellAddressed(StatePlans(states[i], cfg), cfg, env) && ForPort(o.svc, o.port, cfg, env, pkt)
    ensures Kept(Traverse(states[i].kernel, env, pkt), o, n, cfg, node, env, pkt)
  {
    hide *;
    var s := states[i];
    RunInv(states, events, cfg, node, i);
    InvTrackers(s, cfg, node);
    SyncedIsUpToDate(s, o, n, j, node);
    ObjectsClaim(s, o, n, cfg, node, env, pkt);
    EveryRunDeliversToUsable(states, events, cfg, node, i, env, pkt, n);
    PromisedIsKept(Traverse(s.kernel, env, pkt), s, o, n, cfg, node, env, pkt);
  }

  lemma InvTrackers(s: State, cfg: Config, node: Node)
    requires Inv(s, cfg, node)
    ensures TrackersInv(s, node)
  {
    hide TrackersInv, KernelInv, SyncedInv;
  }

  lemma ObjectsClaim(s: State, o: Objects, n: ServicePortName, cfg: Config, node: Node, env: Env, pkt: Packet)
    requires UpToDate(s, o, n, node) && ForPort(o.svc, o.port, cfg, env, pkt)
    ensures Claims(StatePlans(s, cfg), n, cfg, env, pkt) && n in s.svcPortMap
  {
    hide Carries, ForPort, Claims, StatePlans;
    PortClaims(s, n, o.svc, o.port, cfg, env, pkt);
  }

  /** The latest objects of the cluster. */
  ghost predicate AsObserved(s: State, o: Objects, n: ServicePortName, j: int) {
    && Exposes(s.services, n, j) && o.svc == s.services[n.nn] && o.port == o.svc.ports[j]
    && o.slices == LiveSlices(s.live, n.nn) && o.labels == LabelsOf(s.nodeLabels)
  }

  lemma SyncCatchesUp(s: State, s': State, input: SyncInput, cfg: Config, node: Node, o: Objects, n: ServicePortName,
                      j: int)
    requires TrackersInv(s, node) && s.servicesSynced && s.slicesSynced && SyncStep(s, s', input, cfg, node)
    requires AsObserved(s, o, n, j)
    ensures AsOfLastSync(s', o, n, j)
  {
    hide RulesCommitted, RulesFailed, UnionOf, GroupsApplied, Follows, Tracks, AllPrintable, NamedByKey, CheckedOut,
      PendingServices, ListOf, AppliedSlices;
    CheckedOutFollows(s.trackers, s.live);
  }

  /** After every committed sync of every run packets meet what the latest objects of the cluster promise. */
  lemma SyncKeepsPromises(states: seq<State>, events: seq<Event>, cfg: Config, node: Node, i: nat, env: Env,
                          pkt: Packet, n: ServicePortName, o: Objects, j: int)
    requires IsRun(states, events, cfg, node) && i < |events| && SuccessfulSync(states[i], events[i])
    requires AsObserved(states[i], o, n, j) && EntriesAgree(o.slices, node, n.nn)
    requires WellAddressed(StatePlans(states[i + 1], cfg), cfg, env) && ForPort(o.svc, o.port, cfg, env, pkt)
    ensures Kept(Traverse(states[i + 1].kernel, env, pkt), o, n, cfg, node, env, pkt)
  {
    hide *;
    SyncedRun(states, events, cfg, node, i);
    RunInv(states, events, cfg, node, i);
    InvTrackers(states[i], cfg, node);
    SyncCatchesUp(states[i], states[i + 1], events[i].input, cfg, node, o, n, j);
    EveryRunKeepsPromises(states, events, cfg, node, i + 1, env, pkt, n, o, j);
  }

  // ---- The shares ----

  /** The port lists this address, with an entry the packet may go to. */
  ghost predicate Receives(o: Objects, n: ServicePortName, cfg: Config, node: Node, env: Env, pkt: Packet, ip: string,
                           port: nat) {
    exists ep ::
      && ListedAs(o.slices, node, n, ip, port, ep)
      && MayReceive(ep, o.slices, node, n, o.svc.hintsAnnotation, o.labels, cfg.gates,
                    KeptHere(o.svc, o.port, cfg, env, pkt))
  }

  lemma ServersReceive(s: State, o: Objects, n: ServicePortName, cfg: Config, node: Node, env: Env, pkt: Packet,
                       ip: string, port: nat)
    requires UpToDate(s, o, n, node) && ForPort(o.svc, o.port, cfg, env, pkt)
    ensures Receives(o, n, cfg, node, env, pkt, ip, port) <==>
              exists e :: && MayServe(s, cfg, n, MustStayLocal(s.svcPortMap[n], cfg, env, pkt), e)
                          && e.ip == ip && e.port == port
  {
    var info, eps, here := s.svcPortMap[n], ListOf(s.endpointsMap, n), KeptHere(o.svc, o.port, cfg, env, pkt);
    assert info.hintsAnnotation == o.svc.hintsAnnotation;
    hide ForPort, Carries, Mirrors, MayServe, MayReceive, KeptHere, ListedAs, ListOf, Exposed, MustStayLocal;
    CarriedOver(info, o.svc, o.port, cfg, env, pkt);
    UsesKeptList(info, o.svc, o.port, cfg, env, pkt);
    if e :| MayServe(s, cfg, n, here, e) && e.ip == ip && e.port == port {
      ServerIsEntry(s, o, n, cfg, node, env, pkt, e);
    }
    if Receives(o, n, cfg, node, env, pkt, ip, port) {
      var ep :| ListedAs(o.slices, node, n, ip, port, ep)
                && MayReceive(ep, o.slices, node, n, o.svc.hintsAnnotation, o.labels, cfg.gates, here);
      var e := EndpointFor(eps, o.slices, node, n, ip, port, ep);
      ServersMirrored(s, cfg, o.slices, node, n, here, e, ep);
    }
  }

  /** The numbers with which the packet is delivered to the address. */
  ghost function ReachingAt(k: Kernel, env: Env, pkt: Packet, total: nat, ip: string, port: nat): set<int> {
    set r | 0 <= r < total && Traverse(k, env.(random := r), pkt).Accepted?
            && Traverse(k, env.(random := r), pkt).daddr == ip && Traverse(k, env.(random := r), pkt).dport == port
  }

  /** Some address that may receive the packet has a positive score. */
  ghost predicate AnyScored(o: Objects, n: ServicePortName, cfg: Config, node: Node, env: Env, pkt: Packet,
                            sc: Option<ScoreMap>) {
    exists ip, port :: Receives(o, n, cfg, node, env, pkt, ip, port) && Points(sc, ip) > 0
  }

  /** Only remainders matter, and each address that may receive the packet has as many as its score, or one. */
  ghost predicate Divided(k: Kernel, o: Objects, n: ServicePortName, cfg: Config, node: Node, env: Env, pkt: Packet,
                          sc: Option<ScoreMap>, total: nat) {
    && total > 0
    && (forall r: nat :: Traverse(k, env.(random := r), pkt) == Traverse(k, env.(random := Remainder(r, total)), pkt))
    && (forall ip, port :: Receives(o, n, cfg, node, env, pkt, ip, port) ==>
          |ReachingAt(k, env, pkt, total, ip, port)| ==
            if AnyScored(o, n, cfg, node, env, pkt, sc) then Points(sc, ip) else 1)
  }

  ghost predicate DividedByScores(k: Kernel, o: Objects, n: ServicePortName, cfg: Config, node: Node, env: Env,
                                  pkt: Packet, sc: Option<ScoreMap>) {
    exists total :: Divided(k, o, n, cfg, node, env, pkt, sc, total)
  }

  /** No address that may receive the packet has its sender in its affinity set. */
  ghost predicate Free(k: Kernel, o: Objects, n: ServicePortName, cfg: Config, node: Node, env: Env, pkt: Packet) {
    o.svc.clientIPAffinity ==>
      forall ip, port :: Receives(o, n, cfg, node, env, pkt, ip, port) ==>
                           !InSet(k, AffinitySet(n, ip, port), pkt.saddr)
  }

  lemma FreeIsUnbound(s: State, o: Objects, n: ServicePortName, cfg: Config, node: Node, env: Env, pkt: Packet)
    requires UpToDate(s, o, n, node) && ForPort(o.svc, o.port, cfg, env, pkt)
    requires Free(s.kernel, o, n, cfg, node, env, pkt)
    ensures Unbound(s, cfg, n, MustStayLocal(s.svcPortMap[n], cfg, env, pkt), pkt.saddr)
  {
    assert s.svcPortMap[n].clientIPAffinity == o.svc.clientIPAffinity;
    hide ForPort, UpToDate, MayServe, MustStayLocal, Receives, InSet;
    var local := MustStayLocal(s.svcPortMap[n], cfg, env, pkt);
    if o.svc.clientIPAffinity {
      forall e | MayServe(s, cfg, n, local, e)
        ensures !InSet(s.kernel, AffinitySet(n, e.ip, e.port), pkt.saddr)
      {
        ServersReceive(s, o, n, cfg, node, env, pkt, e.ip, e.port);
      }
    }
  }

  lemma OnlyRemainders(s: State, cfg: Config, n: ServicePortName, env: Env, pkt: Packet, sc: Option<ScoreMap>,
                       total: nat)
    requires n in s.svcPortMap && SharedOut(s, cfg, n, env, pkt, sc, total)
    ensures total > 0
    ensures forall r: nat ::
              Traverse(s.kernel, env.(random := r), pkt) == Traverse(s.kernel, env.(random := Remainder(r, total)), pkt)
  {
    hide Traverse, MayServe, MustStayLocal, Remainder, Reaching, Points;
  }

  lemma ShareAt(s: State, o: Objects, n: ServicePortName, cfg: Config, node: Node, env: Env, pkt: Packet,
                sc: Option<ScoreMap>, total: nat, ip: string, port: nat)
    requires UpToDate(s, o, n, node) && ForPort(o.svc, o.port, cfg, env, pkt) && n in s.svcPortMap
    requires SharedOut(s, cfg, n, env, pkt, sc, total) && Receives(o, n, cfg, node, env, pkt, ip, port)
    ensures |ReachingAt(s.kernel, env, pkt, total, ip, port)| ==
              if AnyScored(o, n, cfg, node, env, pkt, sc) then Points(sc, ip) else 1
  {
    hide ForPort, UpToDate, MayServe, MustStayLocal, Receives, Traverse, Points, Remainder, Reaching, ReachingAt,
      AnyScored;
    ScoredMirrored(s, o, n, cfg, node, env, pkt, sc);
    ServersReceive(s, o, n, cfg, node, env, pkt, ip, port);
    var e :| MayServe(s, cfg, n, MustStayLocal(s.svcPortMap[n], cfg, env, pkt), e) && e.ip == ip && e.port == port;
    ReachingSame(s.kernel, env, pkt, total, e);
  }

  lemma SharedIsDivided(s: State, o: Objects, n: ServicePortName, cfg: Config, node: Node, env: Env, pkt: Packet,
                        sc: Option<ScoreMap>)
    requires UpToDate(s, o, n, node) && ForPort(o.svc, o.port, cfg, env, pkt) && n in s.svcPortMap
    requires Shared(s, cfg, n, env, pkt, sc)
    ensures DividedByScores(s.kernel, o, n, cfg, node, env, pkt, sc)
  {
    hide ForPort, UpToDate, Receives, Traverse, Points, Remainder, ReachingAt, AnyScored, SharedOut;
    var total :| SharedOut(s, cfg, n, env, pkt, sc, total);
    OnlyRemainders(s, cfg, n, env, pkt, sc, total);
    forall ip, port | Receives(o, n, cfg, node, env, pkt, ip, port)
      ensures |ReachingAt(s.kernel, env, pkt, total, ip, port)| ==
                if AnyScored(o, n, cfg, node, env, pkt, sc) then Points(sc, ip) else 1
    {
      ShareAt(s, o, n, cfg, node, env, pkt, sc, total, ip, port);
    }
    assert Divided(s.kernel, o, n, cfg, node, env, pkt, sc, total);
  }

  lemma ReachingSame(k: Kernel, env: Env, pkt: Packet, total: nat, e: Endpoint)
    ensures Reaching(k, env, pkt, total, e) == ReachingAt(k, env, pkt, total, e.ip, e.port)
  {
    hide Traverse;
  }

  lemma ScoredMirrored(s: State, o: Objects, n: ServicePortName, cfg: Config, node: Node, env: Env, pkt: Packet,
                       sc: Option<ScoreMap>)
    requires UpToDate(s, o, n, node) && ForPort(o.svc, o.port, cfg, env, pkt) && n in s.svcPortMap
    ensures AnyScored(o, n, cfg, node, env, pkt, sc) <==>
              exists e :: MayServe(s, cfg, n, MustStayLocal(s.svcPortMap[n], cfg, env, pkt), e) && Points(sc, e.ip) > 0
  {
    hide ForPort, UpToDate, MayServe, MustStayLocal, Receives, Points;
    var local := MustStayLocal(s.svcPortMap[n], cfg, env, pkt);
    if ip, port :| Receives(o, n, cfg, node, env, pkt, ip, port) && Points(sc, ip) > 0 {
      ServersReceive(s, o, n, cfg, node, env, pkt, ip, port);
    }
    if e :| MayServe(s, cfg, n, local, e) && Points(sc, e.ip) > 0 {
      ServersReceive(s, o, n, cfg, node, env, pkt, e.ip, e.port);
      assert Receives(o, n, cfg, node, env, pkt, e.ip, e.port);
    }
  }

  /**
   From the objects and the fetched scores to the packets: after a committed sync that wrote the
   port, an accepted packet no affinity decides about is divided among the entries it may go to in
   exact proportion to the scores kept under the port's key, and evenly if none of those is positive.
   */
  lemma SyncDividesByScores(states: seq<State>, events: seq<Event>, cfg: Config, node: Node, i: nat, env: Env,
                            pkt: Packet, n: ServicePortName, o: Objects, j: int, scores: map<string, ScoreMap>,
                            key: string)
    requires IsRun(states, events, cfg, node) && i < |events| && SuccessfulSync(states[i], events[i])
    requires AsObserved(states[i], o, n, j) && EntriesAgree(o.slices, node, n.nn) && !Rests(states[i], n)
    requires n in events[i].input.fetched && ScoredAs(scores, n, events[i].input.fetched[n]) && IsKeyOf(key, n)
    requires WellAddressed(StatePlans(states[i + 1], cfg), cfg, env) && ForPort(o.svc, o.port, cfg, env, pkt)
    requires Traverse(states[i + 1].kernel, env, pkt).Accepted?
    requires Free(states[i + 1].kernel, o, n, cfg, node, env, pkt)
    ensures DividedByScores(states[i + 1].kernel, o, n, cfg, node, env, pkt,
                            if key in scores then Some(scores[key]) else None)
  {
    hide *;
    SyncedRun(states, events, cfg, node, i);
    var s := states[i + 1];
    RunInv(states, events, cfg, node, i);
    RunInv(states, events, cfg, node, i + 1);
    InvTrackers(states[i], cfg, node);
    InvTrackers(s, cfg, node);
    SyncCatchesUp(states[i], s, events[i].input, cfg, node, o, n, j);
    SyncedIsUpToDate(s, o, n, j, node);
    ObjectsClaim(s, o, n, cfg, node, env, pkt);
    FreeIsUnbound(s, o, n, cfg, node, env, pkt);
    SyncSharesByScores(states, events, cfg, node, i, env, pkt, n, scores, key);
    SharedIsDivided(s, o, n, cfg, node, env, pkt, if key in scores then Some(scores[key]) else None);
  }
}
