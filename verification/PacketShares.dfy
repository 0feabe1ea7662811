/** How the random numbers of a packet are shared out among the endpoints it may be sent to. */
module PacketShares {
  import opened ProxyTypes
  import opened Topology
  import opened Nftables
  import opened RuleCompiler
  import opened SyncState
  import opened Weights
  import opened Frontends
  import opened EndpointSlices
  import opened EndpointTracker
  import opened ProxierRuns
  import opened Packets
  import opened PacketChains
  import opened PacketMeaning
  import opened PacketRuns
  import opened Names

  /** The share of an address with the given scores: its score, if that is positive. */
  ghost function Points(sc: Option<ScoreMap>, ip: string): nat {
    if sc.Some? && ip in sc.value && sc.value[ip] > 0 then sc.value[ip] else 0
  }

  // ---- Drawing from a list ----

  /** The numbers that draw an endpoint. */
  ghost function Drawn(eps: seq<Endpoint>, sc: Option<ScoreMap>, total: nat, e: Endpoint): set<int>
    requires eps != []
  {
    set r | 0 <= r < total && ByLot(eps, sc, r) == e
  }

  ghost predicate AnyPoints(eps: seq<Endpoint>, sc: Option<ScoreMap>) {
    exists e :: e in eps && Points(sc, e.ip) > 0
  }

  lemma UsesWaoIs(eps: seq<Endpoint>, sc: Option<ScoreMap>)
    ensures UsesWao(eps, sc) <==> AnyPoints(eps, sc)
  {
    if UsesWao(eps, sc) {
      var i :| 0 <= i < |eps| && ScoreOf(sc.value, eps[i].ip) > 0;
      assert eps[i] in eps && Points(sc, eps[i].ip) > 0;
    }
    if e :| e in eps && Points(sc, e.ip) > 0 {
      var i :| 0 <= i < |eps| && eps[i] == e;
      assert ScoreOf(sc.value, eps[i].ip) > 0;
    }
  }

  /** Only the remainder matters, and every endpoint is drawn as often as its points say, or once if none has any. */
  ghost predicate Lots(eps: seq<Endpoint>, sc: Option<ScoreMap>, total: nat)
    requires eps != []
  {
    && total > 0 && (forall r: nat :: ByLot(eps, sc, r) == ByLot(eps, sc, Remainder(r, total)))
    && (forall e :: e in eps ==> |Drawn(eps, sc, total, e)| == if AnyPoints(eps, sc) then Points(sc, e.ip) else 1)
  }

  lemma SameIndex(eps: seq<Endpoint>, i: nat, j: nat)
    requires UniqueAddresses(eps) && i < |eps| && j < |eps| && eps[i] == eps[j]
    ensures i == j
  {
    hide ProxyTypes.Endpoint.String;
  }

  ghost function Remainder(r: nat, total: nat): (m: nat)
    requires total > 0
    ensures m < total && m % total == m && (r < total ==> m == r)
  {
    r % total
  }

  lemma WeightedLot(eps: seq<Endpoint>, sc: Option<ScoreMap>, r: nat)
    requires eps != [] && UsesWao(eps, sc)
    ensures TotalScore(eps, sc.value) > 0
    ensures ByLot(eps, sc, r) == ByLot(eps, sc, Remainder(r, TotalScore(eps, sc.value)))
    ensures r < TotalScore(eps, sc.value) ==> ByLot(eps, sc, r) == eps[OwnerOf(eps, sc.value, r)]
  {
    WaoPositive(eps, sc.value);
    hide UsesWao, TotalScore, OwnerOf;
    assert r < TotalScore(eps, sc.value) ==> Remainder(r, TotalScore(eps, sc.value)) == r;
  }

  lemma WeightedLots(eps: seq<Endpoint>, sc: Option<ScoreMap>)
    requires eps != [] && UniqueAddresses(eps) && UsesWao(eps, sc)
    ensures Lots(eps, sc, TotalScore(eps, sc.value))
  {
    assert sc.Some?;
    hide UniqueAddresses, TotalScore, UsesWao, AnyPoints, ByLot, Drawn, Points, Remainder;
    UsesWaoIs(eps, sc);
    var total := TotalScore(eps, sc.value);
    WeightedLot(eps, sc, 0);
    forall r: nat
      ensures ByLot(eps, sc, r) == ByLot(eps, sc, Remainder(r, total))
    {
      WeightedLot(eps, sc, r);
    }
    forall e | e in eps
      ensures |Drawn(eps, sc, total, e)| == Points(sc, e.ip)
    {
      var i :| 0 <= i < |eps| && eps[i] == e;
      WeightedDraw(eps, sc, i);
    }
  }

  lemma DrawsOwner(eps: seq<Endpoint>, sc: Option<ScoreMap>, i: nat, r: nat)
    requires UniqueAddresses(eps) && UsesWao(eps, sc) && i < |eps| && r < TotalScore(eps, sc.value)
    ensures ByLot(eps, sc, r) == eps[i] <==> Owns(eps, sc.value, i, r)
  {
    assert sc.Some?;
    hide UniqueAddresses, TotalScore, UsesWao, ByLot, OwnerOf;
    WeightedLot(eps, sc, r);
    var o := OwnerOf(eps, sc.value, r);
    if eps[o] == eps[i] {
      SameIndex(eps, o, i);
    }
    if Owns(eps, sc.value, i, r) {
      OwnerUnique(eps, sc.value, o, i, r);
    }
  }

  /** The numbers an endpoint owns are an interval as long as its points. */
  lemma OwnedInterval(eps: seq<Endpoint>, sc: Option<ScoreMap>, i: nat) returns (lo: int, hi: int)
    requires sc.Some? && i < |eps|
    ensures 0 <= lo <= hi <= TotalScore(eps, sc.value) && hi - lo == Points(sc, eps[i].ip)
    ensures forall r :: Owns(eps, sc.value, i, r) <==> lo <= r < hi
  {
    hide TotalScore;
    lo, hi := TotalScore(eps[..i], sc.value), TotalScore(eps[..i + 1], sc.value);
    TotalSnoc(eps, sc.value, i);
    TotalMonotone(eps, sc.value, i + 1, |eps|);
    assert eps[..|eps|] == eps;
  }

  lemma WeightedDraw(eps: seq<Endpoint>, sc: Option<ScoreMap>, i: nat)
    requires UniqueAddresses(eps) && UsesWao(eps, sc) && i < |eps|
    ensures |Drawn(eps, sc, TotalScore(eps, sc.value), eps[i])| == Points(sc, eps[i].ip)
  {
    assert sc.Some?;
    hide UniqueAddresses, TotalScore, UsesWao, ByLot, Owns, Points;
    var total := TotalScore(eps, sc.value);
    var lo, hi := OwnedInterval(eps, sc, i);
    forall r: nat | r < total
      ensures ByLot(eps, sc, r) == eps[i] <==> lo <= r < hi
    {
      DrawsOwner(eps, sc, i, r);
    }
    assert Drawn(eps, sc, total, eps[i]) == Interval(lo, hi);
  }

  lemma EvenLot(eps: seq<Endpoint>, sc: Option<ScoreMap>, r: nat)
    requires eps != [] && !UsesWao(eps, sc)
    ensures ByLot(eps, sc, r) == ByLot(eps, sc, Remainder(r, |eps|))
    ensures r < |eps| ==> ByLot(eps, sc, r) == eps[r]
  {
    hide UsesWao, TotalScore, OwnerOf;
    assert r < |eps| ==> Remainder(r, |eps|) == r;
  }

  lemma EvenLots(eps: seq<Endpoint>, sc: Option<ScoreMap>)
    requires eps != [] && UniqueAddresses(eps) && !UsesWao(eps, sc)
    ensures Lots(eps, sc, |eps|)
  {
    hide UniqueAddresses, UsesWao, AnyPoints, ByLot, Drawn, Points, Remainder;
    UsesWaoIs(eps, sc);
    forall r: nat
      ensures ByLot(eps, sc, r) == ByLot(eps, sc, Remainder(r, |eps|))
    {
      EvenLot(eps, sc, r);
    }
    forall e | e in eps
      ensures |Drawn(eps, sc, |eps|, e)| == 1
    {
      var i :| 0 <= i < |eps| && eps[i] == e;
      EvenDraw(eps, sc, i);
    }
  }

  lemma EvenDraw(eps: seq<Endpoint>, sc: Option<ScoreMap>, i: nat)
    requires UniqueAddresses(eps) && !UsesWao(eps, sc) && i < |eps|
    ensures |Drawn(eps, sc, |eps|, eps[i])| == 1
  {
    hide UniqueAddresses, UsesWao, ByLot;
    forall r: int | 0 <= r < |eps|
      ensures ByLot(eps, sc, r) == eps[i] <==> r == i
    {
      EvenLot(eps, sc, r);
      if eps[r] == eps[i] {
        SameIndex(eps, r, i);
      }
    }
    assert Drawn(eps, sc, |eps|, eps[i]) == {i as int};
  }

  // ---- Drawing by the rules ----

  /** A frontend's traffic is masqueraded, whichever endpoint it goes to. */
  ghost predicate Marked(svc: ServicePort, cfg: Config, env: Env, pkt: Packet) {
    if pkt.daddr == svc.clusterIP && pkt.dport == svc.port then cfg.masqueradeAll || (cfg.localDetector && !env.fromPod)
    else !svc.externalPolicyLocal || (!(cfg.localDetector && env.fromPod) && pkt.saddr in env.local)
  }

  /** An accepted packet is delivered to the endpoint drawn from the list its policy calls for. */
  lemma MeaningDelivers(k: Kernel, plans: Plans, used: UsedScores, cfg: Config, env: Env, pkt: Packet,
                        n: ServicePortName)
    requires PlansOK(plans) && plans.Keys <= used.Keys && WellAddressed(plans, cfg, env)
    requires Claims(plans, n, cfg, env, pkt) && Meaning(k, plans, used, cfg, env, pkt).Accepted?
    ensures var p := plans[n];
            var eps := PolicyList(p, MustStayLocal(p.svc, cfg, env, pkt));
            && eps != []
            && Meaning(k, plans, used, cfg, env, pkt) ==
                 Deliver(k, p, eps, used[n], env, pkt, Marked(p.svc, cfg, env, pkt))
  {
    hide UnclaimedFate, Forbidden, Plain, AcceptsNodePorts, Deliver, InRanges;
    if ClaimsAddress(plans, n, pkt) {
      forall m | ClaimsAddress(plans, m, pkt)
        ensures m == n
      {
      }
    } else {
      forall m
        ensures !ClaimsAddress(plans, m, pkt) && (ClaimsNodePort(plans, m, cfg, env, pkt) ==> m == n)
      {
      }
    }
  }

  /** Whether a packet is accepted does not depend on the number it draws. */
  lemma AcceptedAnyNumber(k: Kernel, plans: Plans, used: UsedScores, cfg: Config, env: Env, r: nat, pkt: Packet,
                          n: ServicePortName)
    requires PlansOK(plans) && plans.Keys <= used.Keys && WellAddressed(plans, cfg, env)
    requires Claims(plans, n, cfg, env, pkt) && Meaning(k, plans, used, cfg, env, pkt).Accepted?
    ensures WellAddressed(plans, cfg, env.(random := r)) && Claims(plans, n, cfg, env.(random := r), pkt)
    ensures MustStayLocal(plans[n].svc, cfg, env.(random := r), pkt) == MustStayLocal(plans[n].svc, cfg, env, pkt)
    ensures Marked(plans[n].svc, cfg, env.(random := r), pkt) == Marked(plans[n].svc, cfg, env, pkt)
    ensures Meaning(k, plans, used, cfg, env.(random := r), pkt).Accepted?
  {
    hide PlansOK, DistinctFrontends, AddressFrontend, NodePortFrontend, IsClusterIP, InRanges, Barred, Meaning;
    AnyNumber(plans, cfg, env, r);
    assert Claims(plans, n, cfg, env.(random := r), pkt);
    hide WellAddressed, Claims;
    MeaningAllowed(k, plans, used, cfg, env, pkt, n);
    MeaningAllowed(k, plans, used, cfg, env.(random := r), pkt, n);
  }

  lemma AnyNumber(plans: Plans, cfg: Config, env: Env, r: nat)
    requires WellAddressed(plans, cfg, env)
    ensures WellAddressed(plans, cfg, env.(random := r))
  {
    hide DistinctFrontends, AddressFrontend, NodePortFrontend, IsClusterIP, InRanges;
    var env' := env.(random := r);
    assert forall ip :: AcceptsNodePorts(cfg, env', ip) <==> AcceptsNodePorts(cfg, env, ip);
    hide AcceptsNodePorts;
    assert forall n, pkt :: ClaimsNodePort(plans, n, cfg, env', pkt) <==> ClaimsNodePort(plans, n, cfg, env, pkt);
    hide ClaimsNodePort, ClaimsAddress;
    forall n, e, saddr | n in plans && (e in plans[n].cluster || e in plans[n].local)
      ensures Plain(plans, cfg, env', Packet(saddr, e.ip, plans[n].svc.protocol, e.port))
    {
      assert Plain(plans, cfg, env, Packet(saddr, e.ip, plans[n].svc.protocol, e.port));
    }
  }

  /** No affinity decides where the packet goes. */
  ghost predicate Unbound(s: State, cfg: Config, n: ServicePortName, local: bool, saddr: string)
    requires n in s.svcPortMap
  {
    s.svcPortMap[n].clientIPAffinity ==>
      forall e :: MayServe(s, cfg, n, local, e) ==> !InSet(s.kernel, AffinitySet(n, e.ip, e.port), saddr)
  }

  /** The numbers with which the packet reaches the endpoint. */
  ghost function Reaching(k: Kernel, env: Env, pkt: Packet, total: nat, e: Endpoint): set<int> {
    set r | 0 <= r < total && GoesTo(Traverse(k, env.(random := r), pkt), e)
  }

  /**
   Only the number's remainder matters, each one leads to an endpoint the packet may be sent to, and
   exactly as many lead to each of them as its score says; one to each if no score is positive.
   */
  ghost predicate SharedOut(s: State, cfg: Config, n: ServicePortName, env: Env, pkt: Packet, sc: Option<ScoreMap>,
                            total: nat)
    requires n in s.svcPortMap
  {
    var local := MustStayLocal(s.svcPortMap[n], cfg, env, pkt);
    && total > 0
    && (forall r: nat :: Traverse(s.kernel, env.(random := r), pkt) ==
                           Traverse(s.kernel, env.(random := Remainder(r, total)), pkt))
    && (forall r: nat :: exists e :: MayServe(s, cfg, n, local, e)
                                     && GoesTo(Traverse(s.kernel, env.(random := r), pkt), e))
    && (forall e :: MayServe(s, cfg, n, local, e) ==>
          |Reaching(s.kernel, env, pkt, total, e)| ==
            if exists f :: MayServe(s, cfg, n, local, f) && Points(sc, f.ip) > 0 then Points(sc, e.ip) else 1)
  }

  ghost predicate Shared(s: State, cfg: Config, n: ServicePortName, env: Env, pkt: Packet, sc: Option<ScoreMap>)
    requires n in s.svcPortMap
  {
    exists total :: SharedOut(s, cfg, n, env, pkt, sc, total)
  }

  lemma PlansFit(s: State, cfg: Config, n: ServicePortName, local: bool)
    requires PlansOK(StatePlans(s, cfg)) && n in s.svcPortMap
    ensures var p := StatePlans(s, cfg)[n];
            p.spn == n && p.svc == s.svcPortMap[n] && UniqueAddresses(PolicyList(p, local))
  {
    hide LocalEndpoints, ClusterEndpoints, UniqueAddresses, ListOf;
    assert StatePlans(s, cfg)[n].Consistent();
  }

  lemma NotStuck(s: State, cfg: Config, n: ServicePortName, local: bool, saddr: string)
    requires n in s.svcPortMap && Unbound(s, cfg, n, local, saddr) && s.svcPortMap[n].clientIPAffinity
    ensures Sticky(s.kernel, n, PolicyList(StatePlans(s, cfg)[n], local), saddr) == None
  {
    hide PlansOf, MayServe, PolicyList;
    PlanService(s, cfg, n);
    ListedAreAllowed(s, cfg, n, local);
    StickyIsListed(s.kernel, n, PolicyList(StatePlans(s, cfg)[n], local), saddr);
  }

  /** Where the packet goes with a given number. */
  lemma GoesByLot(states: seq<State>, events: seq<Event>, cfg: Config, node: Node, i: nat, env: Env, pkt: Packet,
                  n: ServicePortName, r: nat)
    requires IsRun(states, events, cfg, node) && i < |states| && !states[i].needFullSync
    requires WellAddressed(StatePlans(states[i], cfg), cfg, env) && Claims(StatePlans(states[i], cfg), n, cfg, env, pkt)
    requires n in states[i].svcPortMap && Traverse(states[i].kernel, env, pkt).Accepted?
    requires Unbound(states[i], cfg, n, MustStayLocal(states[i].svcPortMap[n], cfg, env, pkt), pkt.saddr)
    ensures var s := states[i];
            var p, local := StatePlans(s, cfg)[n], MustStayLocal(s.svcPortMap[n], cfg, env, pkt);
            var eps := PolicyList(p, local);
            && eps != [] && UniqueAddresses(eps) && n in s.used
            && Traverse(s.kernel, env.(random := r), pkt) ==
                 Sent(s.svcPortMap[n], n, cfg, env, pkt, ByLot(eps, s.used[n], r))
  {
    hide *;
    var s := states[i];
    var plans, local := StatePlans(s, cfg), MustStayLocal(s.svcPortMap[n], cfg, env, pkt);
    EveryRunServes(states, events, cfg, node, i, env, pkt);
    AcceptedAnyNumber(s.kernel, plans, s.used, cfg, env, r, pkt, n);
    EveryRunServes(states, events, cfg, node, i, env.(random := r), pkt);
    PlansFit(s, cfg, n, local);
    MeaningDelivers(s.kernel, plans, s.used, cfg, env.(random := r), pkt, n);
    DeliversByLot(s, cfg, n, local, env, pkt, r);
  }

  /** The fate of a packet that is sent to an endpoint. */
  ghost function Sent(svc: ServicePort, n: ServicePortName, cfg: Config, env: Env, pkt: Packet, e: Endpoint): Fate {
    Accepted(e.ip, e.port, (Marked(svc, cfg, env, pkt) || pkt.saddr == e.ip) && e.ip !in env.local,
             if svc.clientIPAffinity then {AffinitySet(n, e.ip, e.port)} else {})
  }

  lemma DeliversByLot(s: State, cfg: Config, n: ServicePortName, local: bool, env: Env, pkt: Packet, r: nat)
    requires n in s.svcPortMap && PlansOK(StatePlans(s, cfg)) && PolicyList(StatePlans(s, cfg)[n], local) != []
    requires Unbound(s, cfg, n, local, pkt.saddr) && StatePlans(s, cfg).Keys <= s.used.Keys
    ensures var p, eps := StatePlans(s, cfg)[n], PolicyList(StatePlans(s, cfg)[n], local);
            n in s.used
            && Deliver(s.kernel, p, eps, s.used[n], env.(random := r), pkt, Marked(p.svc, cfg, env, pkt)) ==
                 Sent(s.svcPortMap[n], n, cfg, env, pkt, ByLot(eps, s.used[n], r))
  {
    hide ByLot, Marked, MakePlan, PolicyList, Unbound, PlansOK;
    PlansFit(s, cfg, n, local);
    if s.svcPortMap[n].clientIPAffinity {
      NotStuck(s, cfg, n, local, pkt.saddr);
    }
  }

  /** In every run, whenever no full sync is pending: the numbers of an accepted packet are shared out by the scores. */
  lemma SharedByScores(states: seq<State>, events: seq<Event>, cfg: Config, node: Node, i: nat, env: Env, pkt: Packet,
                       n: ServicePortName)
    requires IsRun(states, events, cfg, node) && i < |states| && !states[i].needFullSync
    requires WellAddressed(StatePlans(states[i], cfg), cfg, env) && Claims(StatePlans(states[i], cfg), n, cfg, env, pkt)
    requires n in states[i].svcPortMap && Traverse(states[i].kernel, env, pkt).Accepted?
    requires Unbound(states[i], cfg, n, MustStayLocal(states[i].svcPortMap[n], cfg, env, pkt), pkt.saddr)
    ensures n in states[i].used && Shared(states[i], cfg, n, env, pkt, states[i].used[n])
  {
    hide *;
    var s := states[i];
    PlanService(s, cfg, n);
    var local := MustStayLocal(s.svcPortMap[n], cfg, env, pkt);
    var eps := PolicyList(StatePlans(s, cfg)[n], local);
    GoesByLot(states, events, cfg, node, i, env, pkt, n, 0);
    forall r: nat
      ensures Traverse(s.kernel, env.(random := r), pkt) ==
                Sent(s.svcPortMap[n], n, cfg, env, pkt, ByLot(eps, s.used[n], r))
    {
      GoesByLot(states, events, cfg, node, i, env, pkt, n, r);
    }
    ListedAreAllowed(s, cfg, n, local);
    var total := LotsExist(eps, s.used[n]);
    LotsShare(s, cfg, n, env, pkt, eps, total);
    SharedIf(s, cfg, n, env, pkt, s.used[n], total);
  }

  lemma SharedIf(s: State, cfg: Config, n: ServicePortName, env: Env, pkt: Packet, sc: Option<ScoreMap>, total: nat)
    requires n in s.svcPortMap && SharedOut(s, cfg, n, env, pkt, sc, total)
    ensures Shared(s, cfg, n, env, pkt, sc)
  {
    hide SharedOut;
  }

  lemma LotsExist(eps: seq<Endpoint>, sc: Option<ScoreMap>) returns (total: nat)
    requires eps != [] && UniqueAddresses(eps)
    ensures Lots(eps, sc, total)
  {
    hide UniqueAddresses, Lots;
    if UsesWao(eps, sc) {
      WeightedLots(eps, sc);
      total := TotalScore(eps, sc.value);
    } else {
      EvenLots(eps, sc);
      total := |eps|;
    }
  }

  lemma ReachingIs(s: State, cfg: Config, n: ServicePortName, env: Env, pkt: Packet, eps: seq<Endpoint>, total: nat,
                   e: Endpoint)
    requires n in s.svcPortMap && n in s.used && UniqueAddresses(eps) && e in eps
    requires forall r: nat ::
               Traverse(s.kernel, env.(random := r), pkt) ==
                 Sent(s.svcPortMap[n], n, cfg, env, pkt, ByLot(eps, s.used[n], r))
    ensures Reaching(s.kernel, env, pkt, total, e) == Drawn(eps, s.used[n], total, e)
  {
    hide Traverse, ByLot, UniqueAddresses, Marked;
    forall r: nat
      ensures GoesTo(Traverse(s.kernel, env.(random := r), pkt), e) <==> ByLot(eps, s.used[n], r) == e
    {
      SameTarget(eps, ByLot(eps, s.used[n], r), e);
    }
  }

  lemma LotsShare(s: State, cfg: Config, n: ServicePortName, env: Env, pkt: Packet, eps: seq<Endpoint>, total: nat)
    requires n in s.svcPortMap && n in s.used && eps != [] && UniqueAddresses(eps) && Lots(eps, s.used[n], total)
    requires forall e :: e in eps <==> MayServe(s, cfg, n, MustStayLocal(s.svcPortMap[n], cfg, env, pkt), e)
    requires forall r: nat ::
               Traverse(s.kernel, env.(random := r), pkt) ==
                 Sent(s.svcPortMap[n], n, cfg, env, pkt, ByLot(eps, s.used[n], r))
    ensures SharedOut(s, cfg, n, env, pkt, s.used[n], total)
  {
    hide MayServe, MustStayLocal, Traverse, ByLot, UniqueAddresses, Points, Marked, Remainder, Reaching, Drawn;
    var sc, local := s.used[n], MustStayLocal(s.svcPortMap[n], cfg, env, pkt);
    forall r: nat
      ensures Traverse(s.kernel, env.(random := r), pkt) == Traverse(s.kernel, env.(random := Remainder(r, total)), pkt)
      ensures exists e :: MayServe(s, cfg, n, local, e) && GoesTo(Traverse(s.kernel, env.(random := r), pkt), e)
    {
      assert ByLot(eps, sc, r) == ByLot(eps, sc, Remainder(r, total));
      assert GoesTo(Traverse(s.kernel, env.(random := r), pkt), ByLot(eps, sc, r));
    }
    forall e | e in eps
      ensures Reaching(s.kernel, env, pkt, total, e) == Drawn(eps, sc, total, e)
    {
      ReachingIs(s, cfg, n, env, pkt, eps, total, e);
    }
    assert AnyPoints(eps, sc) <==> exists f :: MayServe(s, cfg, n, local, f) && Points(sc, f.ip) > 0;
  }

  lemma SameTarget(eps: seq<Endpoint>, e: Endpoint, f: Endpoint)
    requires UniqueAddresses(eps) && e in eps && f in eps
    ensures e.ip == f.ip && e.port == f.port ==> e == f
  {
    if e.ip == f.ip && e.port == f.port {
      hide JoinHostPort;
      SameEntry(eps, e, f);
    }
  }

  // ---- From the scores of a sync to the packets after it ----

  /**
   After a committed sync, a packet of a service port that the sync wrote is shared out by the scores
   kept under the port's key, and evenly if there are none under it.
   */
  lemma SyncSharesByScores(states: seq<State>, events: seq<Event>, cfg: Config, node: Node, i: nat, env: Env,
                           pkt: Packet, n: ServicePortName, scores: map<string, ScoreMap>, key: string)
    requires IsRun(states, events, cfg, node) && i < |events| && SuccessfulSync(states[i], events[i])
    requires n in states[i + 1].svcPortMap && !Rests(states[i], n) && IsKeyOf(key, n)
    requires n in events[i].input.fetched && ScoredAs(scores, n, events[i].input.fetched[n])
    requires WellAddressed(StatePlans(states[i + 1], cfg), cfg, env)
    requires Claims(StatePlans(states[i + 1], cfg), n, cfg, env, pkt)
    requires Traverse(states[i + 1].kernel, env, pkt).Accepted?
    requires Unbound(states[i + 1], cfg, n, MustStayLocal(states[i + 1].svcPortMap[n], cfg, env, pkt), pkt.saddr)
    ensures Shared(states[i + 1], cfg, n, env, pkt, if key in scores then Some(scores[key]) else None)
  {
    hide *;
    SyncedRun(states, events, cfg, node, i);
    RunInv(states, events, cfg, node, i);
    CommittedUses(states[i], states[i + 1], events[i].input, cfg, node, n);
    ScoresAt(scores, n, events[i].input.fetched[n], key);
    SharedByScores(states, events, cfg, node, i + 1, env, pkt, n);
  }

  lemma SyncedRun(states: seq<State>, events: seq<Event>, cfg: Config, node: Node, i: nat)
    requires IsRun(states, events, cfg, node) && i < |events| && SuccessfulSync(states[i], events[i])
    ensures i + 1 < |states| && !states[i + 1].needFullSync
    ensures SyncStep(states[i], states[i + 1], events[i].input, cfg, node)
    ensures states[i].servicesSynced && states[i].slicesSynced && events[i].Sync? && events[i].input.commitOk
  {
    hide Initial, MapsUpdated, Installed, PlansOf, UsedAfter, Active, Closed, MembersKept, AfterDeletion;
    assert Step(states[i], events[i], states[i + 1], cfg, node);
  }

  lemma ScoresAt(scores: map<string, ScoreMap>, n: ServicePortName, sc: Option<ScoreMap>, key: string)
    requires ScoredAs(scores, n, sc) && IsKeyOf(key, n)
    ensures sc == if key in scores then Some(scores[key]) else None
  {
  }

  /** Of scores kept under printed names, a service port is given those under the key that decodes to its parts. */
  lemma ScoredByDecoding(scores: map<string, ScoreMap>, n: ServicePortName, sc: Option<ScoreMap>)
    requires LegalName(n) && ScoredAs(scores, n, sc)
    requires forall key :: key in scores ==> exists m :: LegalName(m) && IsKeyOf(key, m)
    ensures forall key :: key in scores && DecodeName(key) == (n.nn.ns, n.nn.name, n.port) ==> sc == Some(scores[key])
    ensures (forall key :: key in scores ==> DecodeName(key) != (n.nn.ns, n.nn.name, n.port)) ==> sc == None
  {
    hide LegalName, DecodeName;
    forall key | key in scores
      ensures DecodeName(key) == (n.nn.ns, n.nn.name, n.port) <==> IsKeyOf(key, n)
    {
      var m :| LegalName(m) && IsKeyOf(key, m);
      KeyDecodes(key, m);
      if IsKeyOf(key, n) {
        KeyDecodes(key, n);
      }
    }
    assert IsKeyOf(NameString(n), n) by { KeyIs(n); }
  }

  lemma KeyIs(n: ServicePortName)
    ensures IsKeyOf(NameString(n), n)
  {
  }

  lemma KeyDecodes(key: string, n: ServicePortName)
    requires LegalName(n) && IsKeyOf(key, n)
    ensures DecodeName(key) == (n.nn.ns, n.nn.name, n.port)
  {
    hide LegalName, DecodeName;
    DecodePrinted(n);
    KeyIs(n);
  }
}
