/** PodSpread over whole runs: fixed nodes, starting empty, every placement taken from the allocatable list. */
module SpreadRuns {
  import opened Balance
  import opened PodSpread
  import opened SpreadAllocation

  /** The replica set and the cluster a run is about. */
  datatype Setting = Setting(uid: string, replicas: int, redundancy: int, nodes: seq<Node>, tolerated: bool)

  function SessionAt(s: Setting, pods: seq<Pod>): Session {
    SessionFor(s.replicas, s.redundancy, s.uid, pods, s.nodes)
  }

  /** A pod that places no replica, or one replica placed as the list allowed while redundancy was not reached. */
  ghost predicate Placed(s: Setting, before: seq<Pod>, pod: Pod) {
    || Placements(s.uid, pod) == 0
    || (&& Placements(s.uid, pod) == 1
        && SessionAt(s, before).totalDeployed < s.redundancy
        && Allowed(SessionAt(s, before), s.nodes, s.tolerated, pod.nodeName))
  }

  ghost predicate IsRun(s: Setting, pods: seq<Pod>) {
    forall i :: 0 <= i < |pods| ==> Placed(s, pods[..i], pods[i])
  }

  lemma RunPrefix(s: Setting, pods: seq<Pod>)
    requires IsRun(s, pods) && pods != []
    ensures IsRun(s, pods[..|pods| - 1]) && Placed(s, pods[..|pods| - 1], pods[|pods| - 1])
  {
    hide Placed;
    var init := pods[..|pods| - 1];
    forall i | 0 <= i < |init|
      ensures Placed(s, init[..i], init[i])
    {
      assert Placed(s, pods[..i], pods[i]);
      assert init[..i] == pods[..i];
    }
  }

  // ---- Node mode ----

  ghost predicate NodeInv(s: Setting, ss: Session) {
    var c := EligibleCounts(ss, s.nodes, s.tolerated);
    ss.deployed.Keys == Names(s.nodes) && Balanced(c) && Sum(c) == ss.totalDeployed
  }

  lemma NodeStep(s: Setting, ss: Session, ss': Session, x: string)
    requires NodeInv(s, ss) && IsLeast(EligibleCounts(ss, s.nodes, s.tolerated), x)
    requires ss'.deployed == Bump(ss.deployed, x, 1) && ss'.totalDeployed == ss.totalDeployed + 1
    ensures NodeInv(s, ss')
  {
    hide Sum, Eligible, Names;
    var c := EligibleCounts(ss, s.nodes, s.tolerated);
    assert EligibleCounts(ss', s.nodes, s.tolerated) == Bump(c, x, 1) == c[x := c[x] + 1];
    SumBumped(c, x, 1);
    BalanceStep(c, x);
    assert ss'.deployed.Keys == ss.deployed.Keys;
  }

  lemma {:induction false} NodeRun(s: Setting, pods: seq<Pod>)
    requires IsRun(s, pods) && ModeOf(s.nodes) == ByNode
    ensures NodeInv(s, SessionAt(s, pods))
    decreases |pods|
  {
    hide IsRun, ModeOf, SpreadInfoOf, IsLeast;
    if pods == [] {
      var c := EligibleCounts(SessionAt(s, pods), s.nodes, s.tolerated);
      SumOfZeros(c, c.Keys);
    } else {
      var init, pod := pods[..|pods| - 1], pods[|pods| - 1];
      RunPrefix(s, pods);
      NodeRun(s, init);
      if Placements(s.uid, pod) == 1 {
        NodeStep(s, SessionAt(s, init), SessionAt(s, pods), pod.nodeName);
      } else {
        assert SessionAt(s, pods).deployed == SessionAt(s, init).deployed;
        SameCounts(s, SessionAt(s, init), SessionAt(s, pods));
      }
    }
  }

  lemma SameCounts(s: Setting, ss: Session, ss': Session)
    requires NodeInv(s, ss) && ss'.deployed == ss.deployed && ss'.totalDeployed == ss.totalDeployed
    ensures NodeInv(s, ss')
  {
    assert EligibleCounts(ss', s.nodes, s.tolerated) == EligibleCounts(ss, s.nodes, s.tolerated);
  }

  /** The names the pods may be sent to: no control plane node has the name, unless control planes are tolerated. */
  ghost function OpenNames(s: Setting): set<string> {
    set n | n in s.nodes && (s.tolerated || forall m :: m in s.nodes && m.name == n.name ==> !m.controlPlane) :: n.name
  }

  /** c is the floor of r / n, or the ceiling. */
  ghost predicate Even(c: nat, r: nat, n: nat) {
    n > 0 && (c == r / n || (c == r / n + 1 && r % n != 0))
  }

  lemma OpenNamesAre(s: Setting, ss: Session)
    requires ss.deployed.Keys == Names(s.nodes)
    ensures EligibleCounts(ss, s.nodes, s.tolerated).Keys == OpenNames(s)
  {
    forall x
      ensures x in OpenNames(s) <==> x in Names(s.nodes) && Eligible(s.nodes, s.tolerated, x)
    {
      if x in Names(s.nodes) && Eligible(s.nodes, s.tolerated, x) {
        var n :| n in s.nodes && n.name == x;
      }
    }
  }

  /** What a node holds, and what all of them hold, by the conditions of the pods. */
  lemma HeldAre(s: Setting, pods: seq<Pod>, x: string)
    ensures At(SessionAt(s, pods).deployed, x) == |ConditionsOn(s.uid, pods, x)|
    ensures SessionAt(s, pods).totalDeployed == |Conditions(s.uid, pods)|
  {
    hide Counted, TotalPlaced, ModeOf, SpreadInfoOf, Conditions, ConditionsOn;
    CountsAre(Zeros(s.nodes), s.uid, pods, x);
  }

  /**
   When no two nodes differ in region and no two differ in zone: after r replicas each of the n names
   the pods may be sent to holds floor(r / n) or ceiling(r / n) of them.
   */
  lemma NodeBalance(s: Setting, pods: seq<Pod>, x: string)
    requires IsRun(s, pods) && !TwoAreas(s.nodes, true) && !TwoAreas(s.nodes, false) && x in OpenNames(s)
    ensures Even(|ConditionsOn(s.uid, pods, x)|, |Conditions(s.uid, pods)|, |OpenNames(s)|)
    ensures forall y :: y in OpenNames(s) ==> |ConditionsOn(s.uid, pods, x)| <= |ConditionsOn(s.uid, pods, y)| + 1
  {
    hide IsRun, ModeOf, SpreadInfoOf, Sum, Eligible, Names, Counted, TwoAreas, OpenNames, SessionFor, TotalPlaced;
    hide Conditions, ConditionsOn;
    ModeIs(s.nodes);
    NodeRun(s, pods);
    var ss := SessionAt(s, pods);
    var c := EligibleCounts(ss, s.nodes, s.tolerated);
    OpenNamesAre(s, ss);
    FloorOrCeiling(c, x);
    assert |c| == |c.Keys|;
    HeldAre(s, pods, x);
    forall y | y in OpenNames(s)
      ensures |ConditionsOn(s.uid, pods, x)| <= |ConditionsOn(s.uid, pods, y)| + 1
    {
      HeldAre(s, pods, y);
      assert y in c && c[y] == ss.deployed[y] == At(ss.deployed, y);
    }
    assert x in c && c[x] == ss.deployed[x] == At(ss.deployed, x);
  }

  // ---- Region and zone modes ----

  function ByRegionIn(nodes: seq<Node>): bool { ModeOf(nodes) == ByRegion }

  lemma SpreadInfoIs(nodes: seq<Node>)
    requires ModeOf(nodes) != ByNode
    ensures SpreadInfoOf(nodes) == InfoOf(nodes, ByRegionIn(nodes))
  {
  }

  /** No node is in two areas. */
  lemma AreasDisjoint(nodes: seq<Node>, byRegion: bool, a: string, b: string, x: string)
    requires UniqueNames(nodes)
    requires a in InfoOf(nodes, byRegion) && x in InfoOf(nodes, byRegion)[a]
    requires b in InfoOf(nodes, byRegion) && x in InfoOf(nodes, byRegion)[b]
    ensures a == b
  {
    if n :| n in nodes && n.name == x {
      AreaNodesAre(nodes, byRegion, a, n);
      AreaNodesAre(nodes, byRegion, b, n);
    } else {
      NotListed(nodes, byRegion, a, x);
    }
  }

  /** One more replica on a node is one more in its area and in no other. */
  lemma AreaBump(s: Setting, ss: Session, ss': Session, a: string, x: string)
    requires UniqueNames(s.nodes) && ModeOf(s.nodes) != ByNode && ss.info == ss'.info == SpreadInfoOf(s.nodes)
    requires a in ss.info && x in ss.info[a] && ss'.deployed == Bump(ss.deployed, x, 1)
    ensures AreaCounts(ss') == Bump(AreaCounts(ss), a, 1)
  {
    hide UniqueNames, ModeOf, InfoOf;
    SpreadInfoIs(s.nodes);
    forall b | b in ss.info
      ensures AreaCounts(ss')[b] == AreaCounts(ss)[b] + (if b == a then 1 else 0)
    {
      SumBump(ss.deployed, ss.info[b].Keys, x, 1);
      if x in ss.info[b] {
        AreasDisjoint(s.nodes, ByRegionIn(s.nodes), a, b, x);
      }
    }
  }

  /** Replicas sit in areas only, none in an area the pods are kept out of. */
  ghost predicate AreaInv(s: Setting, ss: Session) {
    && ss.info == SpreadInfoOf(s.nodes)
    && Sum(AreaCounts(ss)) == ss.totalDeployed
    && (forall a :: a in ss.info && !s.tolerated && !HasWorker(ss.info[a]) ==> AreaCounts(ss)[a] == 0)
    && ((forall a :: a in ss.info ==> s.tolerated || HasWorker(ss.info[a])) ==> Balanced(AreaCounts(ss)))
  }

  lemma AreaStep(s: Setting, ss: Session, ss': Session, x: string)
    requires UniqueNames(s.nodes) && ModeOf(s.nodes) != ByNode && AreaInv(s, ss) && AreaAllowed(ss, s.tolerated, x)
    requires ss'.info == ss.info && ss'.deployed == Bump(ss.deployed, x, 1) && ss'.totalDeployed == ss.totalDeployed + 1
    ensures AreaInv(s, ss')
  {
    hide UniqueNames, ModeOf, SpreadInfoOf, Sum;
    var a :| OpenArea(ss, s.tolerated, a) && x in ss.info[a] && (s.tolerated || !ss.info[a][x]);
    var c := AreaCounts(ss);
    AreaBump(s, ss, ss', a, x);
    SumBumped(c, a, 1);
    if Balanced(c) {
      BalanceStep(c, a);
    }
    assert Bump(c, a, 1) == c[a := c[a] + 1];
  }

  lemma {:induction false} AreaRun(s: Setting, pods: seq<Pod>)
    requires IsRun(s, pods) && UniqueNames(s.nodes) && ModeOf(s.nodes) != ByNode
    ensures AreaInv(s, SessionAt(s, pods))
    decreases |pods|
  {
    hide IsRun, UniqueNames, ModeOf, SpreadInfoOf, AreaInv, AreaAllowed;
    if pods == [] {
      AreaStart(s, SessionAt(s, pods));
    } else {
      var init, pod := pods[..|pods| - 1], pods[|pods| - 1];
      RunPrefix(s, pods);
      AreaRun(s, init);
      if Placements(s.uid, pod) == 1 {
        AreaStep(s, SessionAt(s, init), SessionAt(s, pods), pod.nodeName);
      } else {
        assert SessionAt(s, pods) == SessionAt(s, init);
      }
    }
  }

  lemma AreaStart(s: Setting, ss: Session)
    requires ss.info == SpreadInfoOf(s.nodes) && ss.totalDeployed == 0 && forall x :: At(ss.deployed, x) == 0
    ensures AreaInv(s, ss)
  {
    hide SpreadInfoOf;
    var c := AreaCounts(ss);
    forall a | a in ss.info
      ensures c[a] == 0
    {
      SumOfZeros(ss.deployed, ss.info[a].Keys);
    }
    SumOfZeros(c, c.Keys);
  }

  /** Said of the session: areas are balanced to the floor or ceiling. */
  lemma AreaCountsBalance(s: Setting, pods: seq<Pod>, a: string)
    requires IsRun(s, pods) && UniqueNames(s.nodes) && ModeOf(s.nodes) != ByNode
    requires a in SpreadInfoOf(s.nodes)
    requires forall b :: b in SpreadInfoOf(s.nodes) ==> s.tolerated || HasWorker(SpreadInfoOf(s.nodes)[b])
    ensures var ss := SessionAt(s, pods);
            var c := AreaCounts(ss);
            && c.Keys == SpreadInfoOf(s.nodes).Keys && (forall b :: b in c ==> c[a] <= c[b] + 1)
            && Even(c[a], ss.totalDeployed, |SpreadInfoOf(s.nodes).Keys|)
  {
    hide IsRun, UniqueNames, ModeOf, SpreadInfoOf, Sum, Counted, HasWorker;
    AreaRun(s, pods);
    var c := AreaCounts(SessionAt(s, pods));
    assert c.Keys == SpreadInfoOf(s.nodes).Keys;
    assert |c| == |c.Keys| && |SpreadInfoOf(s.nodes)| == |SpreadInfoOf(s.nodes).Keys|;
    FloorOrCeiling(c, a);
  }

  /** Every area has a node the pods may go to. */
  ghost predicate EveryAreaOpen(s: Setting, byRegion: bool) {
    forall a :: a in Labels(s.nodes, byRegion) ==>
                  exists n :: n in s.nodes && In(n, byRegion, a) && (s.tolerated || !n.controlPlane)
  }

  /** The replicas on the nodes of an area. */
  ghost function HeldIn(s: Setting, pods: seq<Pod>, byRegion: bool, a: string): nat {
    |ConditionsAmong(s.uid, pods, NamesIn(s.nodes, byRegion, a))|
  }

  /** The areas the code spreads over are the regions if two nodes differ in region, else the zones if two differ. */
  lemma AreasByLabels(s: Setting, byRegion: bool)
    requires UniqueNames(s.nodes) && TwoAreas(s.nodes, byRegion) && (!byRegion ==> !TwoAreas(s.nodes, true))
    ensures ModeOf(s.nodes) != ByNode && SpreadInfoOf(s.nodes) == InfoOf(s.nodes, byRegion)
    ensures SpreadInfoOf(s.nodes).Keys == Labels(s.nodes, byRegion)
    ensures EveryAreaOpen(s, byRegion) ==>
              forall b :: b in SpreadInfoOf(s.nodes) ==> s.tolerated || HasWorker(SpreadInfoOf(s.nodes)[b])
  {
    hide UniqueNames, InfoOf, TwoAreas, Labels, NamesIn, In;
    ModeIs(s.nodes);
    InfoIs(s.nodes, byRegion);
  }

  lemma HeldInAre(s: Setting, pods: seq<Pod>, byRegion: bool, a: string)
    requires UniqueNames(s.nodes) && a in InfoOf(s.nodes, byRegion)
    requires SpreadInfoOf(s.nodes) == InfoOf(s.nodes, byRegion)
    ensures AreaCounts(SessionAt(s, pods))[a] == HeldIn(s, pods, byRegion, a)
  {
    hide UniqueNames, InfoOf, Counted, TotalPlaced, ModeOf, SpreadInfoOf, ConditionsAmong, NamesIn, In, Labels;
    InfoIs(s.nodes, byRegion);
    var names := NamesIn(s.nodes, byRegion, a);
    SumsAre(Zeros(s.nodes), s.uid, pods, names);
    SumOfZeros(Zeros(s.nodes), names);
  }

  /**
   When two nodes differ in region, or in zone with no two differing in region, and every area has a
   node the pods may go to: after r replicas each of the n areas holds floor(r / n) or ceiling(r / n).
   */
  lemma AreaBalance(s: Setting, pods: seq<Pod>, byRegion: bool, a: string)
    requires IsRun(s, pods) && UniqueNames(s.nodes)
    requires TwoAreas(s.nodes, byRegion) && (!byRegion ==> !TwoAreas(s.nodes, true))
    requires EveryAreaOpen(s, byRegion) && a in Labels(s.nodes, byRegion)
    ensures Even(HeldIn(s, pods, byRegion, a), |Conditions(s.uid, pods)|, |Labels(s.nodes, byRegion)|)
    ensures forall b :: b in Labels(s.nodes, byRegion) ==>
              HeldIn(s, pods, byRegion, a) <= HeldIn(s, pods, byRegion, b) + 1
  {
    hide IsRun, UniqueNames, TwoAreas, EveryAreaOpen, Labels, HeldIn, SpreadInfoOf, InfoOf, ModeOf, SessionFor,
      HasWorker;
    hide Conditions, ConditionsOn;
    AreasByLabels(s, byRegion);
    AreaCountsBalance(s, pods, a);
    HeldAre(s, pods, "");
    HeldInAre(s, pods, byRegion, a);
    forall b | b in Labels(s.nodes, byRegion)
      ensures HeldIn(s, pods, byRegion, a) <= HeldIn(s, pods, byRegion, b) + 1
    {
      HeldInAre(s, pods, byRegion, b);
    }
  }

  // ---- The list of nodes, said by the labels and the pods ----

  /** A node the code counts, because it is listed or holds a replica, and no control plane the pods are kept off. */
  ghost predicate Candidate(s: Setting, pods: seq<Pod>, x: string) {
    && ((exists n :: n in s.nodes && n.name == x) || |ConditionsOn(s.uid, pods, x)| > 0)
    && (s.tolerated || forall n :: n in s.nodes && n.name == x ==> !n.controlPlane)
  }

  /** A name is counted because it was from the start or because something was placed on it. */
  lemma {:induction false} CountedKeys(start: Counts, uid: string, pods: seq<Pod>, x: string)
    ensures x in Counted(start, uid, pods) <==> x in start || At(Counted(start, uid, pods), x) > 0
  {
    hide Placements;
    if pods != [] {
      CountedKeys(start, uid, pods[..|pods| - 1], x);
    }
  }

  lemma CandidatesAre(s: Setting, pods: seq<Pod>)
    ensures var c := EligibleCounts(SessionAt(s, pods), s.nodes, s.tolerated);
            forall x :: (x in c <==> Candidate(s, pods, x)) && (x in c ==> c[x] == |ConditionsOn(s.uid, pods, x)|)
  {
    hide Counted, TotalPlaced, ModeOf, SpreadInfoOf, ConditionsOn, Conditions;
    forall x
      ensures var c := EligibleCounts(SessionAt(s, pods), s.nodes, s.tolerated);
              (x in c <==> Candidate(s, pods, x)) && (x in c ==> c[x] == |ConditionsOn(s.uid, pods, x)|)
    {
      CountedKeys(Zeros(s.nodes), s.uid, pods, x);
      HeldAre(s, pods, x);
    }
  }

  /** Below redundancy with one area at most: the candidates that hold the fewest replicas, and all of them. */
  lemma NodeListIs(s: Setting, pods: seq<Pod>, x: string)
    requires !TwoAreas(s.nodes, true) && !TwoAreas(s.nodes, false) && |Conditions(s.uid, pods)| < s.redundancy
    ensures Allowed(SessionAt(s, pods), s.nodes, s.tolerated, x) <==>
              && Candidate(s, pods, x)
              && (forall y :: Candidate(s, pods, y) ==>
                    |ConditionsOn(s.uid, pods, x)| <= |ConditionsOn(s.uid, pods, y)|)
  {
    hide Counted, TotalPlaced, ModeOf, SpreadInfoOf, ConditionsOn, Conditions, TwoAreas, Candidate, EligibleCounts;
    ModeIs(s.nodes);
    HeldAre(s, pods, x);
    CandidatesAre(s, pods);
  }

  /** Below redundancy with several areas: the nodes the pods may go to, in the areas that hold the fewest. */
  lemma AreaListIs(s: Setting, pods: seq<Pod>, byRegion: bool, x: string)
    requires UniqueNames(s.nodes) && |Conditions(s.uid, pods)| < s.redundancy
    requires TwoAreas(s.nodes, byRegion) && (!byRegion ==> !TwoAreas(s.nodes, true))
    ensures Allowed(SessionAt(s, pods), s.nodes, s.tolerated, x) <==>
              exists n, a :: && n in s.nodes && n.name == x && (s.tolerated || !n.controlPlane) && In(n, byRegion, a)
                             && FewestIn(s, pods, byRegion, a)
  {
    hide UniqueNames, Counted, TotalPlaced, ModeOf, SpreadInfoOf, ConditionsOn, Conditions, TwoAreas, InfoOf;
    AreasByLabels(s, byRegion);
    HeldAre(s, pods, x);
    InfoIs(s.nodes, byRegion);
    var ss := SessionAt(s, pods);
    FewestAre(s, pods, byRegion);
    assert Allowed(ss, s.nodes, s.tolerated, x) <==> AreaAllowed(ss, s.tolerated, x);
    if a :| OpenArea(ss, s.tolerated, a) && x in ss.info[a] && (s.tolerated || !ss.info[a][x]) {
      var n :| n in s.nodes && In(n, byRegion, a) && n.name == x;
    }
    if n, a :| && n in s.nodes && n.name == x && (s.tolerated || !n.controlPlane) && In(n, byRegion, a)
               && FewestIn(s, pods, byRegion, a) {
      assert a in Labels(s.nodes, byRegion);
      assert OpenArea(ss, s.tolerated, a);
    }
  }

  /** No area holds fewer replicas. */
  ghost predicate FewestIn(s: Setting, pods: seq<Pod>, byRegion: bool, a: string) {
    forall b :: b in Labels(s.nodes, byRegion) ==> HeldIn(s, pods, byRegion, a) <= HeldIn(s, pods, byRegion, b)
  }

  lemma FewestAre(s: Setting, pods: seq<Pod>, byRegion: bool)
    requires UniqueNames(s.nodes) && SpreadInfoOf(s.nodes) == InfoOf(s.nodes, byRegion)
    ensures forall a :: a in Labels(s.nodes, byRegion) ==>
              (IsLeast(AreaCounts(SessionAt(s, pods)), a) <==> FewestIn(s, pods, byRegion, a))
  {
    hide UniqueNames, InfoOf, SpreadInfoOf, ModeOf, Counted, TotalPlaced, HeldIn, Labels, NamesIn;
    InfoIs(s.nodes, byRegion);
    var c := AreaCounts(SessionAt(s, pods));
    forall a | a in Labels(s.nodes, byRegion)
      ensures a in c && c[a] == HeldIn(s, pods, byRegion, a)
    {
      HeldInAre(s, pods, byRegion, a);
    }
  }

  /** Pods that do not tolerate control planes are never placed on one. */
  lemma KeptOffControlPlanes(s: Setting, pods: seq<Pod>, i: nat, j: nat)
    requires IsRun(s, pods) && UniqueNames(s.nodes) && !s.tolerated && Counts1(s.uid, pods, i, j)
    ensures exists n :: n in s.nodes && n.name == pods[i].nodeName && !n.controlPlane
  {
    hide IsRun, UniqueNames, SessionFor, Allowed;
    var before, x := pods[..i], pods[i].nodeName;
    assert Placed(s, before, pods[i]) && IsRun(s, before) by { RunUpTo(s, pods, i); }
    TruesCount(i, pods[i].scheduled);
    assert (i as int, j as int) in TrueAt(i, pods[i].scheduled);
    AllowedIsWorker(s, before, x);
  }

  lemma RunUpTo(s: Setting, pods: seq<Pod>, i: nat)
    requires IsRun(s, pods) && i < |pods|
    ensures IsRun(s, pods[..i]) && Placed(s, pods[..i], pods[i])
  {
    hide Placed;
    forall k | 0 <= k < i
      ensures Placed(s, pods[..i][..k], pods[..i][k])
    {
      assert Placed(s, pods[..k], pods[k]);
      assert pods[..i][..k] == pods[..k];
    }
  }

  lemma AllowedIsWorker(s: Setting, pods: seq<Pod>, x: string)
    requires IsRun(s, pods) && UniqueNames(s.nodes) && !s.tolerated
    requires var ss := SessionAt(s, pods); ss.totalDeployed < s.redundancy && Allowed(ss, s.nodes, false, x)
    ensures exists n :: n in s.nodes && n.name == x && !n.controlPlane
  {
    hide IsRun, UniqueNames, ModeOf, SpreadInfoOf, Counted, TotalPlaced, InfoOf, AreaCounts;
    var ss := SessionAt(s, pods);
    if ModeOf(s.nodes) == ByNode {
      NodeRun(s, pods);
      assert x in ss.deployed;
    } else {
      SpreadInfoIs(s.nodes);
      InfoIs(s.nodes, ByRegionIn(s.nodes));
      var a :| OpenArea(ss, false, a) && x in ss.info[a] && !ss.info[a][x];
      var n :| n in s.nodes && In(n, ByRegionIn(s.nodes), a) && n.name == x;
    }
  }

  /**
   With an area of control planes only, pods that do not tolerate them find a node only while some
   area with a worker is still empty.
   */
  lemma ControlPlaneAreaBlocks(s: Setting, pods: seq<Pod>, cp: string)
    requires IsRun(s, pods) && UniqueNames(s.nodes) && ModeOf(s.nodes) != ByNode && !s.tolerated
    requires cp in SpreadInfoOf(s.nodes) && !HasWorker(SpreadInfoOf(s.nodes)[cp])
    requires SessionAt(s, pods).totalDeployed < s.redundancy
    ensures var ss := SessionAt(s, pods);
            (exists x :: Allowed(ss, s.nodes, false, x)) <==>
              (exists a :: a in ss.info && HasWorker(ss.info[a]) && AreaCounts(ss)[a] == 0)
  {
    hide IsRun, UniqueNames, ModeOf, SpreadInfoOf, Sum, Counted, HasWorker;
    var ss := SessionAt(s, pods);
    AreaRun(s, pods);
    forall a | a in ss.info
      ensures ss.info[a] != map[]
    {
      SpreadInfoIs(s.nodes);
      AreasAre(s.nodes, ByRegionIn(s.nodes), a);
    }
    AreaProgress(ss, s.nodes, false);
    assert AreaCounts(ss)[cp] == 0;
    if a :| a in ss.info && HasWorker(ss.info[a]) && AreaCounts(ss)[a] == 0 {
      assert OpenArea(ss, false, a);
    }
  }
}
