/** With distinct frontends the order in which a sync visits the service ports makes no difference. */
module AnyOrder {
  import opened Strings
  import opened ProxyTypes
  import opened Nftables
  import opened RuleCompiler
  import opened ElementStorage
  import opened SyncState
  import opened ServiceTracker
  import opened EndpointSlices
  import opened EndpointTracker
  import opened ProxierRuns
  import opened Frontends

  /** Every declared element sits at an address key, a port key or a cluster-IP key. */
  lemma DeclaredKeys(p: Plan, e: Element)
    requires Declares(p, e)
    ensures || e.container == ClusterIPs
            || (exists ip :: e.key == AddressKey(ip, p.svc.protocol, p.svc.port))
            || e.key == PortKey(p.svc.protocol, p.svc.nodePort)
  {
    hide Itoa, ProtocolText;
    if e in p.ClusterIPElements() {
      assert e.container == ClusterIPs || e.key == AddressKey(p.svc.clusterIP, p.svc.protocol, p.svc.port);
    } else if ip :| ExternalAddress(p.svc, ip) && (e in p.ToExternal(ip) || e in p.NoExternal(ip)) {
      assert e.key == AddressKey(ip, p.svc.protocol, p.svc.port);
    } else if ip :| ip in p.svc.loadBalancerVIPs && e in p.ToFirewall(ip) {
      assert e.key == AddressKey(ip, p.svc.protocol, p.svc.port);
    }
  }

  /** Two declarations for one slot agree. */
  lemma DeclarationsAgree(plans: Plans, m: ServicePortName, d: Element, n: ServicePortName, e: Element)
    requires DistinctFrontends(plans) && DeclaredBy(plans, m, d) && DeclaredBy(plans, n, e) && SlotOf(d) == SlotOf(e)
    ensures d.value == e.value
  {
    hide Declares, Itoa, ProtocolText, AddressKey, PortKey, AddressVerdict, PortVerdict;
    var svc := plans[n].svc;
    DeclaredKeys(plans[n], e);
    if e.container == ClusterIPs {
      ClusterIPDeclared(plans[m], d);
      ClusterIPDeclared(plans[n], e);
    } else if ip :| e.key == AddressKey(ip, svc.protocol, svc.port) {
      DeclaredAtAddress(plans[m], d, ip, svc.protocol, svc.port);
      DeclaredAtAddress(plans[n], e, ip, svc.protocol, svc.port);
      assert AddressFrontend(plans, m, ip, svc.protocol, svc.port)
             && AddressFrontend(plans, n, ip, svc.protocol, svc.port);
    } else {
      DeclaredAtPort(plans[m], d, svc.protocol, svc.nodePort);
      DeclaredAtPort(plans[n], e, svc.protocol, svc.nodePort);
      assert NodePortFrontend(plans, m, svc.protocol, svc.nodePort)
             && NodePortFrontend(plans, n, svc.protocol, svc.nodePort);
    }
  }

  /** The elements do not depend on the visiting order. */
  lemma ElementsAnyOrder(plans: Plans, a: seq<ServicePortName>, b: seq<ServicePortName>)
    requires DistinctFrontends(plans) && Visits(a, plans) && Visits(b, plans)
    ensures Puts(map[], AllElements(plans, a)) == Puts(map[], AllElements(plans, b))
  {
    hide Declares, AllElements, Puts, Visits, DistinctFrontends, DeclaredBy;
    var x, y := Puts(map[], AllElements(plans, a)), Puts(map[], AllElements(plans, b));
    forall s: Slot
      ensures Held(x, s) == Held(y, s)
    {
      if n, e :| DeclaredBy(plans, n, e) && SlotOf(e) == s {
        forall m, d | DeclaredBy(plans, m, d) && SlotOf(d) == s
          ensures d.value == e.value
        {
          DeclarationsAgree(plans, m, d, n, e);
        }
        SlotHolds(plans, a, n, e);
        SlotHolds(plans, b, n, e);
      } else {
        SlotEmpty(plans, a, s);
        SlotEmpty(plans, b, s);
      }
    }
    HeldSame(x, y);
  }

  lemma HeldSame(x: Elements, y: Elements)
    requires forall s: Slot :: Held(x, s) == Held(y, s)
    ensures x == y
  {
    forall s: Slot
      ensures s in x <==> s in y
      ensures s in x ==> x[s] == y[s]
    {
      assert Held(x, s) == Held(y, s);
    }
  }

  lemma InstalledAnyOrder(k: Kernel, plans: Plans, used: UsedScores, a: seq<ServicePortName>, b: seq<ServicePortName>,
                          cfg: Config)
    requires Installed(k, plans, used, a, cfg) && Visits(b, plans) && DistinctFrontends(plans)
    ensures Installed(k, plans, used, b, cfg)
  {
    hide DistinctFrontends, Visits, PlansOK, StockInstalled, NodePortSetInstalled, ChainsInstalled, SetsInstalled, Puts,
      AllElements;
    ElementsAnyOrder(plans, a, b);
  }

  lemma InstalledVisits(k: Kernel, plans: Plans, used: UsedScores, a: seq<ServicePortName>, cfg: Config)
    requires Installed(k, plans, used, a, cfg)
    ensures Visits(a, plans)
  {
  }

  /** Partial sync refines full sync, whatever order either of them visits the service ports in. */
  lemma PartialSyncRefinesAnyFullSync(states: seq<State>, events: seq<Event>, cfg: Config, node: Node, i: nat,
                                      z: State, z': State, order: seq<ServicePortName>, now: int)
    requires IsRun(states, events, cfg, node) && i < |events| && SuccessfulSync(states[i], events[i])
    requires forall nn :: Agreeing(Offers(node, nn, LiveSlices(states[i].live, nn)))
    requires FromScratch(states[i], z, z', order, states[i + 1].used, now, cfg, node)
    requires DistinctFrontends(StatePlans(states[i + 1], cfg))
    ensures StatePlans(z', cfg) == StatePlans(states[i + 1], cfg)
    ensures ReachablePart(states[i + 1].kernel, StatePlans(states[i + 1], cfg)) ==
              ReachablePart(z'.kernel, StatePlans(z', cfg))
  {
    hide Inv, Initial, Agreeing, Offers, DistinctFrontends, FromScratch, RulesCommitted;
    RunInv(states, events, cfg, node, i);
    SyncEqualsAnyScratch(states[i], states[i + 1], events[i].input, z, z', order, now, cfg, node);
  }

  lemma SyncEqualsAnyScratch(s: State, s': State, input: SyncInput, z: State, z': State, order: seq<ServicePortName>,
                             now: int, cfg: Config, node: Node)
    requires Inv(s, cfg, node) && input.commitOk && s.servicesSynced && s.slicesSynced
    requires SyncStep(s, s', input, cfg, node)
    requires forall nn :: Agreeing(Offers(node, nn, LiveSlices(s.live, nn)))
    requires FromScratch(s, z, z', order, s'.used, now, cfg, node) && DistinctFrontends(StatePlans(s', cfg))
    ensures StatePlans(z', cfg) == StatePlans(s', cfg)
    ensures ReachablePart(s'.kernel, StatePlans(s', cfg)) == ReachablePart(z'.kernel, StatePlans(s', cfg))
  {
    hide Offers, Agreeing, Installed, PlansOf, KernelInv, SyncedInv, UnionOf, GroupsLive, Follows, GroupsApplied,
      Pictures, DistinctFrontends, AfterDeletion, Active;
    UnionUnique(s'.svcPortMap, z'.svcPortMap, s.services);
    ListsOfLive(s, s', node);
    ListsOfLive(z, z', node);
    LiveListsUnique(s'.endpointsMap, z'.endpointsMap, node, s.live);
    ScratchScores(s, s', z, input, cfg);
    var plans := StatePlans(s', cfg);
    InstalledVisits(s'.kernel, plans, s'.used, input.order, cfg);
    InstalledAnyOrder(z'.kernel, plans, s'.used, order, input.order, cfg);
    InstalledDetermines(s'.kernel, z'.kernel, plans, s'.used, input.order, cfg);
  }
}
