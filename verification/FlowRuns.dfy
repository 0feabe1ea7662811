/** Conntrack entries over whole runs of the proxier. */
module FlowRuns {
  import opened ProxyTypes
  import opened Nftables
  import opened RuleCompiler
  import opened SyncState
  import opened ServiceTracker
  import opened EndpointSlices
  import opened EndpointTracker
  import opened ProxierRuns
  import opened Conntrack
  import opened Frontends
  import opened Packets
  import opened PacketMeaning
  import opened PacketRuns

  /** The proxier with its kernel, and the node's conntrack table. */
  datatype World = World(proxy: State, flows: set<Flow>)

  /** Addresses of the node, fixed during a run. */
  datatype Setting = Setting(cfg: Config, node: Node, local: set<string>, localhost: set<string>,
                             parse: string -> Option<string>)

  function EnvOf(c: Setting, fromPod: bool, random: nat): Env {
    Env(c.local, c.localhost, fromPod, random)
  }

  function PacketOf(f: Flow, saddr: string): Packet {
    Packet(saddr, f.origDst, f.protocol, f.dport)
  }

  /** The rules translate some packet this way. */
  ghost predicate Routed(c: Setting, k: Kernel, f: Flow) {
    exists saddr, fromPod, random ::
      var fate := Traverse(k, EnvOf(c, fromPod, random), PacketOf(f, saddr));
      fate.Accepted? && fate.daddr == f.dnat
  }

  /**
   A sync whose transaction went through cleans up what its own map updates report; every clearing
   request succeeds.
   */
  ghost predicate Cleaned(c: Setting, w: World, w': World, r: Reports) {
    && w'.flows == Cleared(w.flows, Issued(c.parse, w'.proxy.svcPortMap, r))
    && (AppliedAgree(c.node, w.proxy.trackers) ==>
          ReportsHold(w.proxy.svcPortMap, w'.proxy.svcPortMap, w.proxy.endpointsMap, w'.proxy.endpointsMap, r))
  }

  /** Traffic adds flows the rules make and may end others; a committed sync cleans; nothing else touches the table. */
  ghost predicate FlowStep(c: Setting, w: World, e: Event, w': World) {
    && Step(w.proxy, e, w'.proxy, c.cfg, c.node)
    && (if SuccessfulSync(w.proxy, e) then exists r :: Cleaned(c, w, w', r)
        else if e.Traffic? then forall f :: f in w'.flows ==> f in w.flows || Routed(c, w.proxy.kernel, f)
        else w'.flows == w.flows)
  }

  ghost predicate IsFlowRun(c: Setting, ws: seq<World>, events: seq<Event>) {
    && |ws| == |events| + 1 && Initial(ws[0].proxy)
    && forall i :: 0 <= i < |events| ==> FlowStep(c, ws[i], events[i], ws[i + 1])
  }

  function Proxies(ws: seq<World>): (states: seq<State>)
    ensures |states| == |ws| && forall i :: 0 <= i < |ws| ==> states[i] == ws[i].proxy
  {
    seq(|ws|, i requires 0 <= i < |ws| => ws[i].proxy)
  }

  lemma ProxyRun(c: Setting, ws: seq<World>, events: seq<Event>)
    requires IsFlowRun(c, ws, events)
    ensures IsRun(Proxies(ws), events, c.cfg, c.node)
  {
    hide Step, Initial, SuccessfulSync, Cleaned, Routed, Proxies;
    forall i | 0 <= i < |events|
      ensures Step(Proxies(ws)[i], events[i], Proxies(ws)[i + 1], c.cfg, c.node)
    {
      assert FlowStep(c, ws[i], events[i], ws[i + 1]);
    }
  }

  lemma RunLength(c: Setting, ws: seq<World>, events: seq<Event>)
    requires IsFlowRun(c, ws, events)
    ensures |ws| == |events| + 1
  {
  }

  lemma RunStep(c: Setting, ws: seq<World>, events: seq<Event>, i: nat)
    requires IsFlowRun(c, ws, events) && i < |events|
    ensures FlowStep(c, ws[i], events[i], ws[i + 1])
  {
    hide FlowStep, Initial;
  }

  // ---- Flows of an endpoint that is gone ----

  /**
   A UDP endpoint that was serving and whose address the update of this step removed, of a port
   that is still there.
   */
  ghost predicate Vanishes(w: World, w': World, n: ServicePortName, e: Endpoint) {
    && n.protocol == UDP && e in ListOf(w.proxy.endpointsMap, n) && e.serving
    && !HasAddress(ListOf(w'.proxy.endpointsMap, n), e.String()) && n in w'.proxy.svcPortMap
  }

  /**
   If the sync that takes an endpoint off its list commits, no flow from a frontend of the port to
   its address is left.
   */
  lemma VanishedFlowsGone(c: Setting, ws: seq<World>, events: seq<Event>, i: nat, n: ServicePortName, e: Endpoint,
                          f: Flow)
    requires IsFlowRun(c, ws, events) && i < |events| && SuccessfulSync(ws[i].proxy, events[i])
    requires Vanishes(ws[i], ws[i + 1], n, e) && AppliedAgree(c.node, ws[i].proxy.trackers)
    requires ReadsBack(c.parse, e.ip, e.port)
    requires f in ws[i + 1].flows && IPv6(f.origDst) == IPv6(e.ip)
    ensures !(Through(ws[i + 1].proxy.svcPortMap[n], f) && f.dnat == e.ip)
  {
    hide IsFlowRun, Step, AppliedAgree, ReportsExact, Cleared, Issued, ReadsBack, IPv6, Through, HasAddress, ListOf,
      ClusterIPsOf;
    RunLength(c, ws, events);
    RunStep(c, ws, events, i);
    var r :| Cleaned(c, ws[i], ws[i + 1], r);
    GoneEndpointsHaveNoFlows(c.parse, ws[i + 1].proxy.svcPortMap, ws[i].proxy.endpointsMap,
                             ws[i + 1].proxy.endpointsMap, r, ws[i].flows, n, e, f);
  }

  /** The flow came in through a frontend the service port has on this node. */
  ghost predicate FrontendOf(c: Setting, svc: ServicePort, f: Flow) {
    && f.protocol == svc.protocol
    && (|| (f.dport == svc.port && (f.origDst == svc.clusterIP || ExternalAddress(svc, f.origDst)))
        || (svc.nodePort != 0 && f.dport == svc.nodePort && AcceptsNodePorts(c.cfg, EnvOf(c, false, 0), f.origDst)))
  }

  /** While no full sync is pending: the port is as it was, and no endpoint of it has the address. */
  ghost predicate Quiet(c: Setting, w: World, n: ServicePortName, svc: ServicePort, ip: string) {
    && !w.proxy.needFullSync && n in w.proxy.svcPortMap && w.proxy.svcPortMap[n] == svc
    && (forall e :: e in ListOf(w.proxy.endpointsMap, n) ==> e.ip != ip)
    && (forall fromPod, random :: WellAddressed(StatePlans(w.proxy, c.cfg), c.cfg, EnvOf(c, fromPod, random)))
  }

  lemma FrontendClaims(c: Setting, w: World, n: ServicePortName, svc: ServicePort, f: Flow, saddr: string,
                       fromPod: bool, random: nat)
    requires n in w.proxy.svcPortMap && w.proxy.svcPortMap[n] == svc && FrontendOf(c, svc, f)
    ensures Claims(StatePlans(w.proxy, c.cfg), n, c.cfg, EnvOf(c, fromPod, random), PacketOf(f, saddr))
  {
    hide ListOf, MakePlan, NodePortMembers;
    PlanService(w.proxy, c.cfg, n);
  }

  /** The rules make no new flow to an address that no endpoint of the port has. */
  lemma NothingRoutedThere(c: Setting, ws: seq<World>, events: seq<Event>, i: nat, n: ServicePortName, svc: ServicePort,
                           ip: string, f: Flow)
    requires IsFlowRun(c, ws, events) && i < |ws| && Quiet(c, ws[i], n, svc, ip) && FrontendOf(c, svc, f)
    requires Routed(c, ws[i].proxy.kernel, f)
    ensures f.dnat != ip
  {
    hide IsFlowRun, FrontendOf, Traverse, ListOf, WellAddressed, PlansOf, Claims, MustStayLocal, Barred, CanServe;
    var s := ws[i].proxy;
    var saddr, fromPod, random :|
      Traverse(s.kernel, EnvOf(c, fromPod, random), PacketOf(f, saddr)).Accepted?
      && Traverse(s.kernel, EnvOf(c, fromPod, random), PacketOf(f, saddr)).daddr == f.dnat;
    ProxyRun(c, ws, events);
    FrontendClaims(c, ws[i], n, svc, f, saddr, fromPod, random);
    EveryRunDeliversToUsable(Proxies(ws), events, c.cfg, c.node, i, EnvOf(c, fromPod, random), PacketOf(f, saddr), n);
  }

  lemma FlowsFrom(c: Setting, ws: seq<World>, events: seq<Event>, i: nat, f: Flow)
    requires IsFlowRun(c, ws, events) && i < |events| && f in ws[i + 1].flows
    ensures f in ws[i].flows || Routed(c, ws[i].proxy.kernel, f)
  {
    hide IsFlowRun, Step, Routed, Issued, ReportsHold, AppliedAgree;
    RunStep(c, ws, events, i);
  }

  /** And they stay gone, over every stretch of a run in which syncs commit and nothing with that address comes back. */
  lemma {:induction false} VanishedFlowsStayGone(c: Setting, ws: seq<World>, events: seq<Event>, i: nat, j: nat,
                                                 n: ServicePortName,
                                                 svc: ServicePort, ip: string, f: Flow)
    requires IsFlowRun(c, ws, events) && i <= j < |ws|
    requires forall g :: g in ws[i].flows ==> !(FrontendOf(c, svc, g) && g.dnat == ip)
    requires forall m :: i <= m < j ==> Quiet(c, ws[m], n, svc, ip)
    requires f in ws[j].flows
    ensures !(FrontendOf(c, svc, f) && f.dnat == ip)
    decreases j
  {
    hide IsFlowRun, FrontendOf, Quiet, Routed;
    RunLength(c, ws, events);
    if i < j {
      FlowsFrom(c, ws, events, j - 1, f);
      if f in ws[j - 1].flows {
        VanishedFlowsStayGone(c, ws, events, i, j - 1, n, svc, ip, f);
      } else if FrontendOf(c, svc, f) {
        NothingRoutedThere(c, ws, events, j - 1, n, svc, ip, f);
      }
    }
  }

  // ---- What a failed sync loses ----

  ghost predicate SameLists(em: EndpointsMap, em': EndpointsMap) {
    forall n :: ListOf(em', n) == ListOf(em, n)
  }

  lemma SecondSyncKeepsMaps(s: State, s1: State, s2: State, cfg: Config, node: Node, a: SyncInput, b: SyncInput)
    requires Inv(s, cfg, node) && s.servicesSynced && s.slicesSynced
    requires SyncStep(s, s1, a, cfg, node) && SyncStep(s1, s2, b, cfg, node)
    ensures s2.svcPortMap == s1.svcPortMap && SameLists(s1.endpointsMap, s2.endpointsMap)
  {
    hide UnionOf, ListOf, GroupsApplied, RulesCommitted, RulesFailed, KernelInv, SyncedInv, CheckedOut, PendingServices;
    UnionUnique(s1.svcPortMap, s2.svcPortMap, s.services);
    InvParts(s, cfg, node);
    CheckedOutFollows(s.trackers, s.live);
  }

  lemma NoReportsNoRequests(parse: string -> Option<string>, sm: ServicePortMap, em: EndpointsMap, em': EndpointsMap,
                            r: Reports, flows: set<Flow>)
    requires ReportsHold(sm, sm, em, em', r) && SameLists(em, em')
    ensures Issued(parse, sm, r) == {} && Cleared(flows, Issued(parse, sm, r)) == flows
  {
    hide ListOf, AnyServing, HasAddress, Cleared;
    assert sm.Keys - sm.Keys == {};
    forall d
      ensures d !in r.deleted
    {
      assert IsDeleted(em, em', d) <==> d in r.deleted;
      GoneFromSameList(em, em', d);
    }
    forall n
      ensures n !in r.active
    {
      assert IsNewlyActive(em, em', n) <==> n in r.active;
    }
    NothingListed(r.deleted);
    NoneListed(r.active);
    NothingCleared(flows);
  }

  lemma GoneFromSameList(em: EndpointsMap, em': EndpointsMap, d: ServiceEndpoint)
    requires ListOf(em', d.spn) == ListOf(em, d.spn)
    ensures !IsDeleted(em, em', d)
  {
  }

  lemma FirstIsMember<T>(s: seq<T>)
    ensures s != [] ==> s[0] in s
  {
  }

  lemma NothingListed(s: seq<ServiceEndpoint>)
    requires forall d :: d !in s
    ensures s == []
  {
    FirstIsMember(s);
  }

  lemma NoneListed(s: seq<ServicePortName>)
    requires forall n :: n !in s
    ensures s == []
  {
    FirstIsMember(s);
  }

  /**
   The reports of a sync whose transaction fails are lost: after its retry has committed, every flow
   is still there, also those to endpoints that vanished with the failed sync.
   */
  lemma RetryForgets(c: Setting, ws: seq<World>, events: seq<Event>, i: nat)
    requires IsFlowRun(c, ws, events) && i + 1 < |events|
    requires ws[i].proxy.servicesSynced && ws[i].proxy.slicesSynced && events[i].Sync? && !events[i].input.commitOk
    requires SuccessfulSync(ws[i + 1].proxy, events[i + 1]) && AppliedAgree(c.node, ws[i + 1].proxy.trackers)
    ensures ws[i + 2].flows == ws[i].flows
    ensures SameLists(ws[i + 1].proxy.endpointsMap, ws[i + 2].proxy.endpointsMap)
  {
    hide IsFlowRun, SyncStep, Inv, AppliedAgree, ReportsHold, Cleared, Issued, SameLists, Routed;
    RunLength(c, ws, events);
    RunStep(c, ws, events, i);
    RunStep(c, ws, events, i + 1);
    ProxyRun(c, ws, events);
    RunInv(Proxies(ws), events, c.cfg, c.node, i);
    SecondSyncKeepsMaps(ws[i].proxy, ws[i + 1].proxy, ws[i + 2].proxy, c.cfg, c.node, events[i].input,
                        events[i + 1].input);
    var r :| Cleaned(c, ws[i + 1], ws[i + 2], r);
    NoReportsNoRequests(c.parse, ws[i + 2].proxy.svcPortMap, ws[i + 1].proxy.endpointsMap, ws[i + 2].proxy.endpointsMap,
                        r, ws[i + 1].flows);
  }

  /**
   So a flow to an endpoint that vanishes is cleaned with the sync that takes the endpoint off its
   list, or not by its retry either.
   */
  lemma CleanedOnlyByCommit(c: Setting, ws: seq<World>, events: seq<Event>, i: nat, n: ServicePortName, e: Endpoint,
                            f: Flow)
    requires IsFlowRun(c, ws, events) && i + 1 < |events| && events[i].Sync? && ws[i].proxy.servicesSynced
    requires ws[i].proxy.slicesSynced
    requires SuccessfulSync(ws[i + 1].proxy, events[i + 1])
    requires AppliedAgree(c.node, ws[i].proxy.trackers) && AppliedAgree(c.node, ws[i + 1].proxy.trackers)
    requires Vanishes(ws[i], ws[i + 1], n, e) && ReadsBack(c.parse, e.ip, e.port)
    requires f in ws[i].flows && Through(ws[i + 1].proxy.svcPortMap[n], f) && f.dnat == e.ip
    requires IPv6(f.origDst) == IPv6(e.ip)
    ensures f in ws[i + 2].flows <==> !events[i].input.commitOk
  {
    hide IsFlowRun, AppliedAgree, ReadsBack, IPv6, Through, Vanishes, Step;
    RunLength(c, ws, events);
    if events[i].input.commitOk {
      if f in ws[i + 1].flows {
        VanishedFlowsGone(c, ws, events, i, n, e, f);
      }
      CommitsOnlyRemove(c, ws, events, i + 1);
    } else {
      RetryForgets(c, ws, events, i);
    }
  }

  lemma CommitsOnlyRemove(c: Setting, ws: seq<World>, events: seq<Event>, i: nat)
    requires IsFlowRun(c, ws, events) && i < |events| && SuccessfulSync(ws[i].proxy, events[i])
    ensures ws[i + 1].flows <= ws[i].flows
  {
    hide IsFlowRun, Step, AppliedAgree, ReportsHold, Issued;
    RunStep(c, ws, events, i);
  }

  // ---- Exactly the stale flows go ----

  /** The flow uses the port's node port. */
  ghost predicate ByNodePort(svc: ServicePort, f: Flow, ipv6: bool) {
    svc.nodePort != 0 && f.dport == svc.nodePort && IPv6(f.origDst) == ipv6
  }

  /** The flow is to the cluster IP of a UDP port that is gone. */
  ghost predicate ToVanishedPort(w: World, w': World, f: Flow) {
    exists p :: && p in w.proxy.svcPortMap && p !in w'.proxy.svcPortMap && p.protocol == UDP
                && w.proxy.svcPortMap[p].clusterIP == f.origDst
  }

  /** A UDP port that had no serving endpoint and now has one. */
  ghost predicate Revives(w: World, w': World, n: ServicePortName) {
    && n.protocol == UDP && (forall e :: e in ListOf(w.proxy.endpointsMap, n) ==> !e.serving)
    && exists e :: e in ListOf(w'.proxy.endpointsMap, n) && e.serving
  }

  /** The flow is to a frontend of a port that has come back to life. */
  ghost predicate ToRevivedPort(w: World, w': World, f: Flow, ipv6: bool) {
    exists n :: && Revives(w, w', n) && n in w'.proxy.svcPortMap
                && (HasFrontend(w'.proxy.svcPortMap[n], f.origDst) || ByNodePort(w'.proxy.svcPortMap[n], f, ipv6))
  }

  /** The endpoint was listed and serving for a UDP port, and its address and port are no longer listed. */
  ghost predicate Goes(w: World, w': World, n: ServicePortName, e: Endpoint) {
    && n.protocol == UDP && e in ListOf(w.proxy.endpointsMap, n) && e.serving
    && forall x :: x in ListOf(w'.proxy.endpointsMap, n) ==> !(x.ip == e.ip && x.port == e.port)
  }

  /** The flow goes from a frontend of a UDP port to an endpoint that is gone. */
  ghost predicate ToVanishedEndpoint(w: World, w': World, f: Flow) {
    exists n, e :: && Goes(w, w', n, e) && n in w'.proxy.svcPortMap && f.dnat == e.ip
                   && (|| HasFrontend(w'.proxy.svcPortMap[n], f.origDst)
                       || ByNodePort(w'.proxy.svcPortMap[n], f, IPv6(f.dnat)))
  }

  /** All addresses are of one family, each port's protocol is the one in its name, and endpoints can be read back. */
  ghost predicate OneFamily(c: Setting, w: World, w': World, ipv6: bool) {
    && (forall n :: n in w'.proxy.svcPortMap ==>
          IPv6(w'.proxy.svcPortMap[n].clusterIP) == ipv6 && w'.proxy.svcPortMap[n].protocol == n.protocol)
    && (forall n, e :: e in ListOf(w.proxy.endpointsMap, n) ==> ReadsBack(c.parse, e.ip, e.port))
  }

  /**
   A committed sync removes a flow exactly if it is a UDP flow to the cluster IP of a vanished port, to
   a frontend of a port that has come back to life, or from a frontend to an endpoint that is gone.
   */
  lemma SyncClearsExactly(c: Setting, ws: seq<World>, events: seq<Event>, i: nat, f: Flow, ipv6: bool)
    requires IsFlowRun(c, ws, events) && i < |events| && SuccessfulSync(ws[i].proxy, events[i])
    requires AppliedAgree(c.node, ws[i].proxy.trackers) && OneFamily(c, ws[i], ws[i + 1], ipv6) && f in ws[i].flows
    ensures f !in ws[i + 1].flows <==>
              && f.protocol == UDP
              && (|| ToVanishedPort(ws[i], ws[i + 1], f) || ToRevivedPort(ws[i], ws[i + 1], f, ipv6)
                  || ToVanishedEndpoint(ws[i], ws[i + 1], f))
  {
    hide IsFlowRun, Step, AppliedAgree, ReportsHold, Cleared, Issued, OneFamily, ToVanishedPort, ToRevivedPort,
      ToVanishedEndpoint, ToActive, ToDeleted, IPv6;
    RunLength(c, ws, events);
    RunStep(c, ws, events, i);
    var w, w' := ws[i], ws[i + 1];
    var r :| Cleaned(c, w, w', r);
    FamilyOf(c, w, w', ipv6);
    ClearedIff(c.parse, w'.proxy.svcPortMap, r, w.flows, ipv6, f);
    VanishedPortsReported(w, w', r, f);
    RevivedPortsReported(c, w, w', r, f, ipv6);
    VanishedEndpointsReported(c, w, w', r, f, ipv6);
  }

  lemma FamilyOf(c: Setting, w: World, w': World, ipv6: bool)
    requires OneFamily(c, w, w', ipv6)
    ensures forall n :: n in w'.proxy.svcPortMap ==> IPv6(w'.proxy.svcPortMap[n].clusterIP) == ipv6
  {
    hide IPv6, ReadsBack, ListOf;
  }

  ghost predicate Compared(w: World, w': World, r: Reports) {
    ReportsHold(w.proxy.svcPortMap, w'.proxy.svcPortMap, w.proxy.endpointsMap, w'.proxy.endpointsMap, r)
  }

  lemma VanishedPortsReported(w: World, w': World, r: Reports, f: Flow)
    requires Compared(w, w', r)
    ensures f.origDst in r.deletedIPs <==> ToVanishedPort(w, w', f)
  {
    hide ReportsExact;
  }

  lemma RevivesReported(w: World, w': World, r: Reports, n: ServicePortName)
    requires Compared(w, w', r)
    ensures Revives(w, w', n) <==> n in r.active && n.protocol == UDP
  {
    hide ClusterIPsOf, ListOf, HasAddress;
    assert IsNewlyActive(w.proxy.endpointsMap, w'.proxy.endpointsMap, n) <==> n in r.active;
  }

  lemma ActiveAreUDP(w: World, w': World, r: Reports, n: ServicePortName)
    requires Compared(w, w', r) && n in r.active
    ensures n.protocol == UDP
  {
    hide ClusterIPsOf, ListOf, HasAddress, AnyServing;
    assert IsNewlyActive(w.proxy.endpointsMap, w'.proxy.endpointsMap, n);
  }

  lemma PortProtocol(c: Setting, w: World, w': World, ipv6: bool, n: ServicePortName)
    requires OneFamily(c, w, w', ipv6) && n in w'.proxy.svcPortMap
    ensures w'.proxy.svcPortMap[n].protocol == n.protocol
  {
    hide IPv6, ReadsBack, ListOf;
  }

  lemma RevivedPortsReported(c: Setting, w: World, w': World, r: Reports, f: Flow, ipv6: bool)
    requires Compared(w, w', r) && OneFamily(c, w, w', ipv6)
    ensures ToActive(w'.proxy.svcPortMap, r.active, ipv6, f) <==> ToRevivedPort(w, w', f, ipv6)
  {
    hide Compared, OneFamily, Revives, HasFrontend, IPv6;
    forall n | n in w'.proxy.svcPortMap
      ensures n in r.active <==> Revives(w, w', n)
      ensures n in r.active ==> w'.proxy.svcPortMap[n].protocol == UDP
    {
      RevivesReported(w, w', r, n);
      PortProtocol(c, w, w', ipv6, n);
      if n in r.active {
        ActiveAreUDP(w, w', r, n);
      }
    }
  }

  lemma GoesReported(w: World, w': World, r: Reports, n: ServicePortName, e: Endpoint)
    requires Compared(w, w', r) && e in ListOf(w.proxy.endpointsMap, n) && e.serving
    ensures Goes(w, w', n, e) <==> ServiceEndpoint(e.String(), n) in r.deleted
  {
    hide ClusterIPsOf, ListOf, AnyServing, JoinHostPort;
    var d := ServiceEndpoint(e.String(), n);
    assert IsDeleted(w.proxy.endpointsMap, w'.proxy.endpointsMap, d) <==> d in r.deleted;
    forall x | x in ListOf(w'.proxy.endpointsMap, n)
      ensures x.String() == e.String() <==> x.ip == e.ip && x.port == e.port
    {
      if x.String() == e.String() {
        JoinHostPortInjective(x.ip, x.port, e.ip, e.port);
      }
    }
  }

  lemma VanishedEndpointsReported(c: Setting, w: World, w': World, r: Reports, f: Flow, ipv6: bool)
    requires Compared(w, w', r) && OneFamily(c, w, w', ipv6)
    ensures ToDeleted(c.parse, w'.proxy.svcPortMap, r.deleted, f) <==> ToVanishedEndpoint(w, w', f)
  {
    hide ClusterIPsOf, HasFrontend, IPv6, ReadsBack, ListOf, AnyServing, HasAddress, IPPart, JoinHostPort, Goes;
    var sm := w'.proxy.svcPortMap;
    if d :| && d in r.deleted && d.spn in sm && f.dnat == IPPart(c.parse, d.endpoint)
            && (HasFrontend(sm[d.spn], f.origDst)
                || (sm[d.spn].nodePort != 0 && f.dport == sm[d.spn].nodePort && IPv6(f.origDst) == IPv6(f.dnat))) {
      assert IsDeleted(w.proxy.endpointsMap, w'.proxy.endpointsMap, d);
      var e :| e in ListOf(w.proxy.endpointsMap, d.spn) && e.serving && e.String() == d.endpoint;
      IPPartOfEndpoint(c.parse, e.ip, e.port);
      assert d == ServiceEndpoint(e.String(), d.spn);
      GoesReported(w, w', r, d.spn, e);
      assert HasFrontend(sm[d.spn], f.origDst) || ByNodePort(sm[d.spn], f, IPv6(f.dnat));
    }
    if n, e :| && Goes(w, w', n, e) && n in sm && f.dnat == e.ip
               && (HasFrontend(sm[n], f.origDst) || ByNodePort(sm[n], f, IPv6(f.dnat))) {
      assert e in ListOf(w.proxy.endpointsMap, n) && e.serving by { GoesWas(w, w', n, e); }
      GoesReported(w, w', r, n, e);
      IPPartOfEndpoint(c.parse, e.ip, e.port);
      assert ServiceEndpoint(e.String(), n).spn in sm;
    }
  }

  lemma GoesWas(w: World, w': World, n: ServicePortName, e: Endpoint)
    requires Goes(w, w', n, e)
    ensures e in ListOf(w.proxy.endpointsMap, n) && e.serving
  {
  }
}
