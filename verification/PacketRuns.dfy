/** Packets over whole runs of the proxier. */
module PacketRuns {
  import opened ProxyTypes
  import opened Topology
  import opened Nftables
  import opened RuleCompiler
  import opened SyncState
  import opened Frontends
  import opened EndpointSlices
  import opened EndpointTracker
  import opened ProxierRuns
  import opened Packets
  import opened PacketChains
  import opened PacketMeaning

  /** In every run, whenever no full sync is pending, every packet meets the fate its service promises. */
  lemma EveryRunServes(states: seq<State>, events: seq<Event>, cfg: Config, node: Node, i: nat, env: Env, pkt: Packet)
    requires IsRun(states, events, cfg, node) && i < |states| && !states[i].needFullSync
    requires WellAddressed(StatePlans(states[i], cfg), cfg, env)
    ensures var s := states[i];
            && PlansOK(StatePlans(s, cfg)) && StatePlans(s, cfg).Keys <= s.used.Keys
            && Traverse(s.kernel, env, pkt) == Meaning(s.kernel, StatePlans(s, cfg), s.used, cfg, env, pkt)
  {
    hide *;
    RunInv(states, events, cfg, node, i);
    InvInstalled(states[i], cfg, node);
    RulesPreserveMeaning(states[i].kernel, StatePlans(states[i], cfg), states[i].used, states[i].order, cfg, env, pkt);
  }

  lemma InvInstalled(s: State, cfg: Config, node: Node)
    requires Inv(s, cfg, node) && !s.needFullSync
    ensures Installed(s.kernel, StatePlans(s, cfg), s.used, s.order, cfg)
  {
    hide Installed, StatePlans, TrackersInv, KernelInv;
  }

  /** The endpoint may be sent new connections at all. */
  ghost predicate CanServe(e: Endpoint) {
    e.ready || (e.serving && e.terminating)
  }

  /** The endpoints a packet of the service port may be sent to. */
  ghost predicate MayServe(s: State, cfg: Config, n: ServicePortName, local: bool, e: Endpoint)
    requires n in s.svcPortMap
  {
    if local then MayServeLocal(e, ListOf(s.endpointsMap, n), s.svcPortMap[n])
    else MayServeCluster(e, ListOf(s.endpointsMap, n), s.svcPortMap[n], LabelsOf(s.nodeLabels), cfg.gates)
  }

  lemma PlanService(s: State, cfg: Config, n: ServicePortName)
    requires n in s.svcPortMap
    ensures n in StatePlans(s, cfg) && StatePlans(s, cfg)[n].svc == s.svcPortMap[n]
  {
  }

  /** They are the endpoints of its policy lists. */
  lemma ListedAreAllowed(s: State, cfg: Config, n: ServicePortName, local: bool)
    requires n in s.svcPortMap
    ensures forall e :: e in PolicyList(StatePlans(s, cfg)[n], local) <==> MayServe(s, cfg, n, local, e)
  {
    hide MayServeCluster, MayServeLocal;
    ClusterListIs(ListOf(s.endpointsMap, n), s.svcPortMap[n], LabelsOf(s.nodeLabels), cfg.gates);
    LocalListIs(ListOf(s.endpointsMap, n), s.svcPortMap[n]);
  }

  /** The service port a packet is for, by address or by node port. */
  ghost predicate Claims(plans: Plans, n: ServicePortName, cfg: Config, env: Env, pkt: Packet) {
    ClaimsAddress(plans, n, pkt) || ClaimsNodePort(plans, n, cfg, env, pkt)
  }

  /** The traffic policy keeps the packet on this node. */
  ghost predicate MustStayLocal(svc: ServicePort, cfg: Config, env: Env, pkt: Packet) {
    if pkt.daddr == svc.clusterIP && pkt.dport == svc.port then svc.internalPolicyLocal
    else svc.externalPolicyLocal && !(cfg.localDetector && env.fromPod) && pkt.saddr !in env.local
  }

  /** The packet is for a load-balancer address whose source ranges do not admit its sender. */
  ghost predicate Barred(svc: ServicePort, cfg: Config, pkt: Packet) {
    && pkt.dport == svc.port && pkt.daddr in svc.loadBalancerVIPs && svc.loadBalancerSourceRanges != []
    && !InRanges(svc.loadBalancerSourceRanges, pkt.saddr)
    && !(InRanges(svc.loadBalancerSourceRanges, cfg.nodeIP) && pkt.saddr in svc.loadBalancerVIPs)
  }

  /** The packet is delivered to this endpoint. */
  ghost predicate GoesTo(fate: Fate, e: Endpoint) {
    fate.Accepted? && fate.daddr == e.ip && fate.dport == e.port
  }

  /** What may become of a packet for a service port. */
  ghost predicate Allowed(fate: Fate, p: Plan, cfg: Config, env: Env, pkt: Packet) {
    && (fate == Rejected <==> !Barred(p.svc, cfg, pkt) && !p.hasEndpoints)
    && (fate == Dropped <==>
          Barred(p.svc, cfg, pkt) || (p.hasEndpoints && MustStayLocal(p.svc, cfg, env, pkt) && p.local == []))
    && (fate.Accepted? ==> exists e :: GoesTo(fate, e) && e in PolicyList(p, MustStayLocal(p.svc, cfg, env, pkt)))
    && fate != Broken
  }

  lemma DeliverAllowed(k: Kernel, p: Plan, sc: Option<ScoreMap>, cfg: Config, env: Env, pkt: Packet, marked: bool)
    requires PolicyList(p, MustStayLocal(p.svc, cfg, env, pkt)) != [] && !Barred(p.svc, cfg, pkt) && p.hasEndpoints
    requires MustStayLocal(p.svc, cfg, env, pkt) ==> p.local != []
    ensures Allowed(Deliver(k, p, PolicyList(p, MustStayLocal(p.svc, cfg, env, pkt)), sc, env, pkt, marked), p, cfg,
                    env, pkt)
  {
    hide Chosen, MustStayLocal, Forbidden;
    var eps := PolicyList(p, MustStayLocal(p.svc, cfg, env, pkt));
    var e := Chosen(k, p, eps, sc, pkt.saddr, env.random);
    ChosenIsListed(k, p, eps, sc, pkt.saddr, env.random);
    assert GoesTo(Deliver(k, p, eps, sc, env, pkt, marked), e);
  }

  lemma InternalAllowed(k: Kernel, p: Plan, sc: Option<ScoreMap>, cfg: Config, env: Env, pkt: Packet)
    requires p.Consistent() && pkt.daddr == p.svc.clusterIP && pkt.dport == p.svc.port && !Barred(p.svc, cfg, pkt)
    ensures Allowed(InternalFate(k, p, sc, cfg, env, pkt), p, cfg, env, pkt)
  {
    hide Deliver, Forbidden;
    if p.hasEndpoints && !(p.svc.internalPolicyLocal && p.local == []) {
      DeliverAllowed(k, p, sc, cfg, env, pkt, cfg.masqueradeAll || (cfg.localDetector && !env.fromPod));
    }
  }

  lemma ExternalAllowed(k: Kernel, p: Plan, sc: Option<ScoreMap>, cfg: Config, env: Env, pkt: Packet)
    requires p.Consistent() && p.svc.ExternallyAccessible()
    requires !(pkt.daddr == p.svc.clusterIP && pkt.dport == p.svc.port)
    requires !Barred(p.svc, cfg, pkt)
    ensures Allowed(ExternalFate(k, p, sc, cfg, env, pkt), p, cfg, env, pkt)
  {
    hide Deliver, Forbidden;
    if p.hasEndpoints && !(MustStayLocal(p.svc, cfg, env, pkt) && p.local == []) {
      DeliverAllowed(k, p, sc, cfg, env, pkt, true);
      DeliverAllowed(k, p, sc, cfg, env, pkt, false);
    }
  }

  /** The meaning of a packet for a service port is one of the allowed fates. */
  lemma MeaningAllowed(k: Kernel, plans: Plans, used: UsedScores, cfg: Config, env: Env, pkt: Packet,
                       n: ServicePortName)
    requires PlansOK(plans) && plans.Keys <= used.Keys && WellAddressed(plans, cfg, env)
    requires Claims(plans, n, cfg, env, pkt)
    ensures Allowed(Meaning(k, plans, used, cfg, env, pkt), plans[n], cfg, env, pkt)
  {
    hide Allowed, InternalFate, ExternalFate, UnclaimedFate, Forbidden, Plain, RuleCompiler.Plan.Consistent,
      AcceptsNodePorts;
    if ClaimsAddress(plans, n, pkt) {
      forall m | ClaimsAddress(plans, m, pkt)
        ensures m == n
      {
      }
      assert Forbidden(plans[n], cfg, pkt) <==> Barred(plans[n].svc, cfg, pkt) by { BarredIs(plans, n, cfg, pkt); }
      if Forbidden(plans[n], cfg, pkt) {
        DroppedAllowed(plans[n], cfg, env, pkt);
      } else if pkt.daddr == plans[n].svc.clusterIP {
        ClusterIPNotBarred(plans, n, cfg, pkt);
        InternalAllowed(k, plans[n], used[n], cfg, env, pkt);
      } else {
        ExternalAllowed(k, plans[n], used[n], cfg, env, pkt);
      }
    } else {
      NotBarred(plans, n, cfg, pkt);
      forall m
        ensures !ClaimsAddress(plans, m, pkt) && (ClaimsNodePort(plans, m, cfg, env, pkt) ==> m == n)
      {
      }
      ExternalAllowed(k, plans[n], used[n], cfg, env, pkt);
    }
  }

  lemma BarredIs(plans: Plans, n: ServicePortName, cfg: Config, pkt: Packet)
    requires ClaimsAddress(plans, n, pkt)
    ensures Forbidden(plans[n], cfg, pkt) <==> Barred(plans[n].svc, cfg, pkt)
  {
  }

  /** Node ports are not subject to source ranges. */
  lemma NotBarred(plans: Plans, n: ServicePortName, cfg: Config, pkt: Packet)
    requires n in plans && pkt.protocol == plans[n].svc.protocol && !ClaimsAddress(plans, n, pkt)
    ensures !Barred(plans[n].svc, cfg, pkt)
  {
  }

  lemma ClusterIPNotBarred(plans: Plans, n: ServicePortName, cfg: Config, pkt: Packet)
    requires DistinctFrontends(plans) && n in plans && pkt.daddr == plans[n].svc.clusterIP
    ensures !Barred(plans[n].svc, cfg, pkt)
  {
    assert !ExternalAddress(plans[n].svc, plans[n].svc.clusterIP);
  }

  lemma DroppedAllowed(p: Plan, cfg: Config, env: Env, pkt: Packet)
    requires Barred(p.svc, cfg, pkt)
    ensures Allowed(Dropped, p, cfg, env, pkt)
  {
  }

  /** What becomes of a packet for a service port, said by its service and its endpoints. */
  ghost predicate Promised(fate: Fate, s: State, cfg: Config, n: ServicePortName, env: Env, pkt: Packet) {
    && n in s.svcPortMap
    && var svc, eps := s.svcPortMap[n], ListOf(s.endpointsMap, n);
       var local, barred := MustStayLocal(svc, cfg, env, pkt), Barred(svc, cfg, pkt);
       && (fate == Rejected <==> !barred && forall e :: e in eps ==> !CanServe(e))
       && (fate == Dropped <==>
             barred
             || (local && (exists e :: e in eps && CanServe(e)) && forall e :: e in eps && e.isLocal ==> !CanServe(e)))
       && (fate.Accepted? ==> exists e :: GoesTo(fate, e) && MayServe(s, cfg, n, local, e))
       && fate != Broken
  }

  /**
   In every run, whenever no full sync is pending, running the rules on a packet for a service port
   drops it exactly if a source range bars it or it must stay on this node and no endpoint here can
   serve it, rejects it exactly if it is not barred and no endpoint can serve it, and otherwise
   delivers it to an endpoint the traffic policy, readiness and topology allow.
   */
  lemma EveryRunDeliversToUsable(states: seq<State>, events: seq<Event>, cfg: Config, node: Node, i: nat, env: Env,
                                 pkt: Packet,
                                 n: ServicePortName)
    requires IsRun(states, events, cfg, node) && i < |states| && !states[i].needFullSync
    requires WellAddressed(StatePlans(states[i], cfg), cfg, env) && Claims(StatePlans(states[i], cfg), n, cfg, env, pkt)
    ensures Promised(Traverse(states[i].kernel, env, pkt), states[i], cfg, n, env, pkt)
  {
    hide *;
    var s := states[i];
    EveryRunServes(states, events, cfg, node, i, env, pkt);
    MeaningAllowed(s.kernel, StatePlans(s, cfg), s.used, cfg, env, pkt, n);
    AllowedIsPromised(s, cfg, n, env, pkt, Traverse(s.kernel, env, pkt));
  }

  lemma AllowedIsPromised(s: State, cfg: Config, n: ServicePortName, env: Env, pkt: Packet, fate: Fate)
    requires Claims(StatePlans(s, cfg), n, cfg, env, pkt) && Allowed(fate, StatePlans(s, cfg)[n], cfg, env, pkt)
    ensures Promised(fate, s, cfg, n, env, pkt)
  {
    var p, eps := StatePlans(s, cfg)[n], ListOf(s.endpointsMap, n);
    assert p.svc == s.svcPortMap[n] && p.local == LocalEndpoints(eps, p.svc) && p.hasEndpoints == HasUsable(eps);
    UsableIs(eps);
    if MustStayLocal(p.svc, cfg, env, pkt) {
      ClaimedExposed(StatePlans(s, cfg), n, cfg, env, pkt);
      hide LocalEndpoints;
      LocalNonEmptyIffUsable(eps, p.svc);
    }
    hide Barred, MustStayLocal, PlansOf, LocalEndpoints, HasUsable, ListOf, PolicyList, Claims, MayServe, Exposed;
    ListedAreAllowed(s, cfg, n, MustStayLocal(p.svc, cfg, env, pkt));
  }

  lemma UsableIs(eps: seq<Endpoint>)
    ensures HasUsable(eps) <==> exists e :: e in eps && CanServe(e)
  {
    if e :| e in eps && e.Usable() {
      assert CanServe(e);
    }
    if e :| e in eps && CanServe(e) {
      assert e.Usable();
    }
  }

  /** What must stay local is traffic of a service port that keeps a list of local endpoints. */
  lemma ClaimedExposed(plans: Plans, n: ServicePortName, cfg: Config, env: Env, pkt: Packet)
    requires Claims(plans, n, cfg, env, pkt) && MustStayLocal(plans[n].svc, cfg, env, pkt)
    ensures plans[n].svc.internalPolicyLocal || (plans[n].svc.externalPolicyLocal && Exposed(plans[n].svc))
  {
    hide AcceptsNodePorts;
  }

  // ---- Stickiness ----

  /** The endpoint a client has an affinity to, if there is one and only one among the service port's sets. */
  ghost predicate SticksTo(k: Kernel, n: ServicePortName, saddr: string, e: Endpoint) {
    InSet(k, EpSet(n, e), saddr)
    && forall s: SetName :: s.AffinitySet? && s.spn == n && InSet(k, s, saddr) ==> s == EpSet(n, e)
  }

  /** A committed sync that keeps the set keeps the affinity, and no other set of the port claims the client. */
  lemma SyncKeepsAffinity(s: State, s': State, input: SyncInput, cfg: Config, node: Node, n: ServicePortName,
                          saddr: string, e: Endpoint)
    requires SyncStep(s, s', input, cfg, node) && SticksTo(s.kernel, n, saddr, e) && EpSet(n, e) in s'.kernel.sets
    ensures SticksTo(s'.kernel, n, saddr, e)
  {
    hide SyncStep;
    SyncKeepsMembers(s, s', input, cfg, node);
  }

  /** Every sync, committed or failed, keeps the members of each affinity set that stays. */
  lemma SyncKeepsMembers(s: State, s': State, input: SyncInput, cfg: Config, node: Node)
    requires SyncStep(s, s', input, cfg, node)
    ensures forall x: SetName :: x.AffinitySet? && x in s'.kernel.sets ==>
              s'.kernel.sets[x] == if x in s.kernel.sets then s.kernel.sets[x] else {}
  {
    hide MapsUpdated, Installed, PlansOf, Closed, Active, UsedAfter;
  }

  /** So the client keeps being sent to that endpoint: whatever changed, as long as the endpoint is still listed. */
  lemma ClientsStick(s: State, s': State, input: SyncInput, cfg: Config, node: Node, n: ServicePortName, saddr: string,
                     e: Endpoint,
                     eps: seq<Endpoint>, random: nat)
    requires SyncStep(s, s', input, cfg, node) && SticksTo(s.kernel, n, saddr, e) && EpSet(n, e) in s'.kernel.sets
    requires n in StatePlans(s', cfg) && n in s'.used && StatePlans(s', cfg)[n].spn == n
    requires StatePlans(s', cfg)[n].svc.clientIPAffinity
    requires e in eps
    ensures var c := Chosen(s'.kernel, StatePlans(s', cfg)[n], eps, s'.used[n], saddr, random);
            c.ip == e.ip && c.port == e.port
  {
    hide SyncStep, PlansOf, ByLot;
    SyncKeepsAffinity(s, s', input, cfg, node, n, saddr, e);
    StickyIsListed(s'.kernel, n, eps, saddr);
    var stuck := Sticky(s'.kernel, n, eps, saddr);
    assert InSet(s'.kernel, EpSet(n, stuck.value), saddr);
  }
}
