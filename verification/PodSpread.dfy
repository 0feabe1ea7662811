/** The PodSpread scheduler plugin (podspread.go): counting replicas and listing the nodes a pod may go to. */
module PodSpread {
  import opened ProxyTypes
  import opened Balance

  datatype Node = Node(name: string, controlPlane: bool, zone: Option<string>, region: Option<string>)

  /** `scheduled` has one entry per status condition: true for PodScheduled with status True. */
  datatype Pod = Pod(controller: Option<string>, scheduled: seq<bool>, nodeName: string)

  /** `rate` is the parsed annotation, if it could be parsed. */
  datatype ReplicaSet = ReplicaSet(uid: string, name: string, replicas: nat, rate: Option<real>)

  datatype SpreadMode = ByRegion | ByZone | ByNode

  /** Area to node to "is a control plane node". */
  type SpreadInfo = map<string, map<string, bool>>

  // ---- getSpreadMode ----

  function AreaOf(n: Node, byRegion: bool): Option<string> {
    if byRegion then n.region else n.zone
  }

  function Enter(info: SpreadInfo, n: Node, area: Option<string>): SpreadInfo {
    if area.None? then info
    else info[area.value := (if area.value in info then info[area.value] else map[])[n.name := n.controlPlane]]
  }

  function InfoOf(nodes: seq<Node>, byRegion: bool): SpreadInfo {
    if nodes == [] then map[]
    else Enter(InfoOf(nodes[..|nodes| - 1], byRegion), nodes[|nodes| - 1], AreaOf(nodes[|nodes| - 1], byRegion))
  }

  function ModeOf(nodes: seq<Node>): SpreadMode {
    if |InfoOf(nodes, true)| >= 2 then ByRegion else if |InfoOf(nodes, false)| >= 2 then ByZone else ByNode
  }

  function SpreadInfoOf(nodes: seq<Node>): SpreadInfo {
    match ModeOf(nodes)
    case ByRegion => InfoOf(nodes, true)
    case ByZone => InfoOf(nodes, false)
    case ByNode => map[]
  }

  ghost predicate UniqueNames(nodes: seq<Node>) {
    forall i, j :: 0 <= i < j < |nodes| ==> nodes[i].name != nodes[j].name
  }

  ghost predicate Labelled(nodes: seq<Node>, byRegion: bool, area: string, n: Node) {
    n in nodes && AreaOf(n, byRegion) == Some(area)
  }

  /** The areas are those named by labels, and none is empty. */
  lemma {:induction false} AreasAre(nodes: seq<Node>, byRegion: bool, a: string)
    ensures a in InfoOf(nodes, byRegion) <==> exists n :: Labelled(nodes, byRegion, a, n)
    ensures a in InfoOf(nodes, byRegion) ==> InfoOf(nodes, byRegion)[a] != map[]
  {
    if nodes != [] {
      var init, last := nodes[..|nodes| - 1], nodes[|nodes| - 1];
      AreasAre(init, byRegion, a);
      assert nodes == init + [last];
      assert forall n :: Labelled(nodes, byRegion, a, n) <==>
               Labelled(init, byRegion, a, n) || (n == last && AreaOf(last, byRegion) == Some(a));
      if AreaOf(last, byRegion) == Some(a) {
        assert Labelled(nodes, byRegion, a, last);
        assert last.name in InfoOf(nodes, byRegion)[a];
      }
    }
  }

  /** Each area lists its own nodes and marks the control plane ones. */
  lemma {:induction false} AreaNodesAre(nodes: seq<Node>, byRegion: bool, a: string, n: Node)
    requires UniqueNames(nodes) && n in nodes
    ensures a in InfoOf(nodes, byRegion) && n.name in InfoOf(nodes, byRegion)[a] <==> AreaOf(n, byRegion) == Some(a)
    ensures AreaOf(n, byRegion) == Some(a) ==> InfoOf(nodes, byRegion)[a][n.name] == n.controlPlane
  {
    var init, last := nodes[..|nodes| - 1], nodes[|nodes| - 1];
    assert nodes == init + [last];
    if n in init {
      assert n.name != last.name;
      AreaNodesAre(init, byRegion, a, n);
    } else {
      NotListed(init, byRegion, a, n.name);
    }
  }

  /** A name no node has is in no area. */
  lemma {:induction false} NotListed(nodes: seq<Node>, byRegion: bool, a: string, x: string)
    requires forall n :: n in nodes ==> n.name != x
    ensures a in InfoOf(nodes, byRegion) ==> x !in InfoOf(nodes, byRegion)[a]
  {
    if nodes != [] {
      NotListed(nodes[..|nodes| - 1], byRegion, a, x);
    }
  }

  // ---- The mode and the areas, said by the labels alone ----

  /** The node carries this region (or zone) label. */
  ghost predicate In(n: Node, byRegion: bool, area: string) {
    (if byRegion then n.region else n.zone) == Some(area)
  }

  /** Two nodes carry different region (or zone) labels. */
  ghost predicate TwoAreas(nodes: seq<Node>, byRegion: bool) {
    exists m, n, a, b :: m in nodes && n in nodes && a != b && In(m, byRegion, a) && In(n, byRegion, b)
  }

  ghost predicate ModeByLabels(mode: SpreadMode, nodes: seq<Node>) {
    && (mode == ByRegion <==> TwoAreas(nodes, true))
    && (mode == ByZone <==> !TwoAreas(nodes, true) && TwoAreas(nodes, false))
    && (mode == ByNode <==> !TwoAreas(nodes, true) && !TwoAreas(nodes, false))
  }

  lemma TwoKeys(keys: set<string>)
    ensures |keys| >= 2 <==> exists a, b :: a in keys && b in keys && a != b
  {
    if |keys| >= 2 {
      var a :| a in keys;
      assert |keys - {a}| >= 1;
      var b :| b in keys - {a};
    }
    if a, b :| a in keys && b in keys && a != b {
      assert {a, b} <= keys && |{a, b}| == 2;
      assert |keys| == |keys - {a, b}| + 2;
    }
  }

  lemma TwoAreasAre(nodes: seq<Node>, byRegion: bool)
    ensures |InfoOf(nodes, byRegion)| >= 2 <==> TwoAreas(nodes, byRegion)
  {
    hide InfoOf;
    var keys := InfoOf(nodes, byRegion).Keys;
    TwoKeys(keys);
    if a, b :| a in keys && b in keys && a != b {
      AreasAre(nodes, byRegion, a);
      AreasAre(nodes, byRegion, b);
      var m :| Labelled(nodes, byRegion, a, m);
      var n :| Labelled(nodes, byRegion, b, n);
      assert In(m, byRegion, a) && In(n, byRegion, b);
    }
    if m, n, a, b :| m in nodes && n in nodes && a != b && In(m, byRegion, a) && In(n, byRegion, b) {
      assert Labelled(nodes, byRegion, a, m) && Labelled(nodes, byRegion, b, n);
      AreasAre(nodes, byRegion, a);
      AreasAre(nodes, byRegion, b);
    }
  }

  lemma ModeIs(nodes: seq<Node>)
    ensures ModeByLabels(ModeOf(nodes), nodes)
  {
    hide TwoAreas;
    TwoAreasAre(nodes, true);
    TwoAreasAre(nodes, false);
  }

  /** The names of the nodes with this label. */
  ghost function NamesIn(nodes: seq<Node>, byRegion: bool, area: string): set<string> {
    set n | n in nodes && In(n, byRegion, area) :: n.name
  }

  /** The labels the nodes carry. */
  ghost function Labels(nodes: seq<Node>, byRegion: bool): set<string> {
    set n | n in nodes && (if byRegion then n.region else n.zone).Some?
      :: (if byRegion then n.region else n.zone).value
  }

  lemma InfoIs(nodes: seq<Node>, byRegion: bool)
    requires UniqueNames(nodes)
    ensures InfoOf(nodes, byRegion).Keys == Labels(nodes, byRegion)
    ensures forall a :: a in InfoOf(nodes, byRegion) ==> InfoOf(nodes, byRegion)[a].Keys == NamesIn(nodes, byRegion, a)
    ensures forall a, n :: a in InfoOf(nodes, byRegion) && n in nodes && In(n, byRegion, a) ==>
              n.name in InfoOf(nodes, byRegion)[a] && InfoOf(nodes, byRegion)[a][n.name] == n.controlPlane
  {
    hide InfoOf, UniqueNames;
    var info := InfoOf(nodes, byRegion);
    forall a
      ensures a in info <==> a in Labels(nodes, byRegion)
    {
      AreasAre(nodes, byRegion, a);
      assert forall n :: n in nodes && In(n, byRegion, a) ==> Labelled(nodes, byRegion, a, n);
    }
    forall a, n | a in info && n in nodes && In(n, byRegion, a)
      ensures n.name in info[a] && info[a][n.name] == n.controlPlane
    {
      AreaNodesAre(nodes, byRegion, a, n);
    }
    forall a | a in info
      ensures info[a].Keys == NamesIn(nodes, byRegion, a)
    {
      forall x | x in info[a]
        ensures x in NamesIn(nodes, byRegion, a)
      {
        if n :| n in nodes && n.name == x {
          AreaNodesAre(nodes, byRegion, a, n);
        } else {
          NotListed(nodes, byRegion, a, x);
        }
      }
    }
  }

  method GetSpreadMode(nodes: seq<Node>) returns (mode: SpreadMode, regions: SpreadInfo, zones: SpreadInfo)
    ensures mode == ModeOf(nodes) && regions == InfoOf(nodes, true) && zones == InfoOf(nodes, false)
    ensures ModeByLabels(mode, nodes)
  {
    hide ModeByLabels;
    ModeIs(nodes);
    zones := AreasOf(nodes, false);
    regions := AreasOf(nodes, true);
    if |regions| >= 2 {
      mode := ByRegion;
    } else if |zones| >= 2 {
      mode := ByZone;
    } else {
      mode := ByNode;
    }
  }

  method AreasOf(nodes: seq<Node>, byRegion: bool) returns (info: SpreadInfo)
    ensures info == InfoOf(nodes, byRegion)
  {
    info := map[];
    for i := 0 to |nodes|
      invariant info == InfoOf(nodes[..i], byRegion)
    {
      assert nodes[..i + 1][..i] == nodes[..i];
      var area := AreaOf(nodes[i], byRegion);
      if area.Some? {
        if area.value !in info {
          info := info[area.value := map[]];
        }
        info := info[area.value := info[area.value][nodes[i].name := nodes[i].controlPlane]];
      }
    }
    assert nodes[..|nodes|] == nodes;
  }

  // ---- updateSchedulingSession ----

  function Trues(s: seq<bool>): nat {
    if s == [] then 0 else Trues(s[..|s| - 1]) + (if s[|s| - 1] then 1 else 0)
  }

  function Placements(uid: string, pod: Pod): nat {
    if pod.controller == Some(uid) then Trues(pod.scheduled) else 0
  }

  function Counted(start: Counts, uid: string, pods: seq<Pod>): Counts {
    if pods == [] then start
    else Bump(Counted(start, uid, pods[..|pods| - 1]), pods[|pods| - 1].nodeName, Placements(uid, pods[|pods| - 1]))
  }

  function TotalPlaced(uid: string, pods: seq<Pod>): nat {
    if pods == [] then 0 else TotalPlaced(uid, pods[..|pods| - 1]) + Placements(uid, pods[|pods| - 1])
  }

  function Zeros(nodes: seq<Node>): Counts {
    map n | n in Names(nodes) :: 0
  }

  function Names(nodes: seq<Node>): set<string> {
    set n | n in nodes :: n.name
  }

  /** Conservation: every counted placement is counted on exactly one node. */
  lemma {:induction false} CountsConserved(start: Counts, uid: string, pods: seq<Pod>)
    ensures Sum(Counted(start, uid, pods)) == Sum(start) + TotalPlaced(uid, pods)
  {
    if pods != [] {
      CountsConserved(start, uid, pods[..|pods| - 1]);
      SumBumped(Counted(start, uid, pods[..|pods| - 1]), pods[|pods| - 1].nodeName, Placements(uid, pods[|pods| - 1]));
    }
  }

  // ---- The counts, said by the pods alone ----

  /** A condition of a pod that counts: the pod belongs to the replica set, and the condition says it is scheduled. */
  ghost predicate Counts1(uid: string, pods: seq<Pod>, i: int, j: int) {
    0 <= i < |pods| && pods[i].controller == Some(uid) && 0 <= j < |pods[i].scheduled| && pods[i].scheduled[j]
  }

  ghost function Conditions(uid: string, pods: seq<Pod>): set<(int, int)> {
    set i, j | 0 <= i < |pods| && 0 <= j < |pods[i].scheduled| && Counts1(uid, pods, i, j) :: (i, j)
  }

  /** Those of pods on one node. */
  ghost function ConditionsOn(uid: string, pods: seq<Pod>, x: string): set<(int, int)> {
    set i, j | 0 <= i < |pods| && 0 <= j < |pods[i].scheduled| && Counts1(uid, pods, i, j) && pods[i].nodeName == x ::
      (i, j)
  }

  ghost function TrueAt(i: int, s: seq<bool>): set<(int, int)> {
    set j | 0 <= j < |s| && s[j] :: (i, j)
  }

  lemma {:induction false} TruesCount(i: int, s: seq<bool>)
    ensures |TrueAt(i, s)| == Trues(s)
  {
    if s == [] {
      assert TrueAt(i, s) == {};
    } else {
      var init := s[..|s| - 1];
      TruesCount(i, init);
      if s[|s| - 1] {
        assert TrueAt(i, s) == TrueAt(i, init) + {(i, |s| - 1)};
      } else {
        assert TrueAt(i, s) == TrueAt(i, init);
      }
    }
  }

  /** The total is the number of conditions that count, and a node's count the number of those on the node. */
  lemma {:induction false} CountsAre(start: Counts, uid: string, pods: seq<Pod>, x: string)
    ensures TotalPlaced(uid, pods) == |Conditions(uid, pods)|
    ensures At(Counted(start, uid, pods), x) == At(start, x) + |ConditionsOn(uid, pods, x)|
  {
    hide Counts1, TrueAt, Trues, Conditions, ConditionsOn;
    if pods == [] {
      NoConditions(uid, x);
    } else {
      var init, last, i := pods[..|pods| - 1], pods[|pods| - 1], |pods| - 1;
      CountsAre(start, uid, init, x);
      ConditionsSnoc(uid, pods, x);
      TruesCount(i, last.scheduled);
    }
  }

  /** Those of pods on some of the nodes. */
  ghost function ConditionsAmong(uid: string, pods: seq<Pod>, names: set<string>): set<(int, int)> {
    set i, j | 0 <= i < |pods| && 0 <= j < |pods[i].scheduled| && Counts1(uid, pods, i, j) && pods[i].nodeName in names
      :: (i, j)
  }

  /** The counts of several nodes add up to the number of conditions on those nodes. */
  lemma {:induction false} SumsAre(start: Counts, uid: string, pods: seq<Pod>, names: set<string>)
    ensures SumOver(Counted(start, uid, pods), names) == SumOver(start, names) + |ConditionsAmong(uid, pods, names)|
    decreases |names|
  {
    hide Counted, Counts1;
    if names == {} {
      assert ConditionsAmong(uid, pods, names) == {};
    } else {
      var x :| x in names;
      SumsAre(start, uid, pods, names - {x});
      SumRemove(Counted(start, uid, pods), names, x);
      SumRemove(start, names, x);
      CountsAre(start, uid, pods, x);
      AmongSplit(uid, pods, names, x);
    }
  }

  lemma AmongSplit(uid: string, pods: seq<Pod>, names: set<string>, x: string)
    requires x in names
    ensures |ConditionsAmong(uid, pods, names)| ==
              |ConditionsAmong(uid, pods, names - {x})| + |ConditionsOn(uid, pods, x)|
  {
    hide Counts1;
    var rest, here := ConditionsAmong(uid, pods, names - {x}), ConditionsOn(uid, pods, x);
    assert ConditionsAmong(uid, pods, names) == rest + here;
    assert rest !! here;
  }

  lemma NoConditions(uid: string, x: string)
    ensures Conditions(uid, []) == {} && ConditionsOn(uid, [], x) == {}
  {
  }

  lemma ConditionsSnoc(uid: string, pods: seq<Pod>, x: string)
    requires pods != []
    ensures var init, last, i := pods[..|pods| - 1], pods[|pods| - 1], |pods| - 1;
            var more := if last.controller == Some(uid) then TrueAt(i, last.scheduled) else {};
            && Conditions(uid, init) !! more && Conditions(uid, pods) == Conditions(uid, init) + more
            && ConditionsOn(uid, init, x) !! more
            && ConditionsOn(uid, pods, x) == ConditionsOn(uid, init, x) + if last.nodeName == x then more else {}
  {
    var init, last, i := pods[..|pods| - 1], pods[|pods| - 1], |pods| - 1;
    assert forall k, j :: 0 <= k < i ==> (Counts1(uid, pods, k, j) <==> Counts1(uid, init, k, j));
    assert forall j :: Counts1(uid, pods, i, j) <==>
             last.controller == Some(uid) && (i, j) in TrueAt(i, last.scheduled);
  }

  /** A scheduling session, as a value. */
  datatype Session = Session(totalReplicas: int, redundancy: int, deployed: Counts, totalDeployed: nat,
                             mode: SpreadMode, info: SpreadInfo)

  /** What a session looks like after it has been brought up to date. */
  function SessionFor(totalReplicas: int, redundancy: int, uid: string, pods: seq<Pod>, nodes: seq<Node>): Session {
    Session(totalReplicas, redundancy, Counted(Zeros(nodes), uid, pods), TotalPlaced(uid, pods), ModeOf(nodes),
            SpreadInfoOf(nodes))
  }

  lemma SessionConserves(totalReplicas: int, redundancy: int, uid: string, pods: seq<Pod>, nodes: seq<Node>)
    ensures var ss := SessionFor(totalReplicas, redundancy, uid, pods, nodes); Sum(ss.deployed) == ss.totalDeployed
  {
    CountsConserved(Zeros(nodes), uid, pods);
    SumOfZeros(Zeros(nodes), Zeros(nodes).Keys);
  }

  class SchedulingSession {
    var totalReplicas: int
    var redundancy: int
    var deployedNodes: Counts
    var totalDeployed: nat
    var spreadMode: SpreadMode
    var spreadInfo: SpreadInfo

    ghost function Value(): Session
      reads this
    {
      Session(totalReplicas, redundancy, deployedNodes, totalDeployed, spreadMode, spreadInfo)
    }

    constructor (totalReplicas: int, redundancy: int)
      ensures this.totalReplicas == totalReplicas && this.redundancy == redundancy
    {
      this.totalReplicas, this.redundancy := totalReplicas, redundancy;
      deployedNodes, totalDeployed, spreadMode, spreadInfo := map[], 0, ByNode, map[];
    }

    method SetDeployNodes(uid: string, pods: seq<Pod>)
      modifies this`deployedNodes, this`totalDeployed
      ensures deployedNodes == Counted(old(deployedNodes), uid, pods) && totalDeployed == TotalPlaced(uid, pods)
      ensures Sum(deployedNodes) == old(Sum(deployedNodes)) + totalDeployed
    {
      totalDeployed := 0;
      for i := 0 to |pods|
        invariant deployedNodes == Counted(old(deployedNodes), uid, pods[..i])
        invariant totalDeployed == TotalPlaced(uid, pods[..i])
      {
        assert pods[..i + 1][..i] == pods[..i];
        if pods[i].controller == Some(uid) {
          CountConditions(pods[i]);
        }
      }
      assert pods[..|pods|] == pods;
      CountsConserved(old(deployedNodes), uid, pods);
    }

    /** The loop over one pod's conditions. */
    method CountConditions(pod: Pod)
      modifies this`deployedNodes, this`totalDeployed
      ensures deployedNodes == Bump(old(deployedNodes), pod.nodeName, Trues(pod.scheduled))
      ensures totalDeployed == old(totalDeployed) + Trues(pod.scheduled)
    {
      for j := 0 to |pod.scheduled|
        invariant deployedNodes == Bump(old(deployedNodes), pod.nodeName, Trues(pod.scheduled[..j]))
        invariant totalDeployed == old(totalDeployed) + Trues(pod.scheduled[..j])
      {
        assert pod.scheduled[..j + 1][..j] == pod.scheduled[..j];
        if pod.scheduled[j] {
          deployedNodes := deployedNodes[pod.nodeName := At(deployedNodes, pod.nodeName) + 1];
          totalDeployed := totalDeployed + 1;
        }
      }
      assert pod.scheduled[..|pod.scheduled|] == pod.scheduled;
    }

    /** The part of `updateSchedulingSession` that recomputes the session. */
    method Refresh(rs: ReplicaSet, pods: seq<Pod>, nodes: seq<Node>)
      modifies this
      ensures Value() == SessionFor(old(totalReplicas), old(redundancy), rs.uid, pods, nodes)
      ensures Sum(deployedNodes) == totalDeployed
    {
      hide Counted, TotalPlaced, InfoOf;
      deployedNodes := NothingDeployed(nodes);
      SessionConserves(totalReplicas, redundancy, rs.uid, pods, nodes);
      SetDeployNodes(rs.uid, pods);
      var mode, regions, zones := GetSpreadMode(nodes);
      spreadMode := mode;
      match mode {
        case ByRegion => spreadInfo := regions;
        case ByZone => spreadInfo := zones;
        case ByNode => spreadInfo := map[];
      }
    }
  }

  method NothingDeployed(nodes: seq<Node>) returns (m: Counts)
    ensures m == Zeros(nodes)
  {
    m := map[];
    for i := 0 to |nodes|
      invariant m == Zeros(nodes[..i])
    {
      assert nodes[..i + 1] == nodes[..i] + [nodes[i]];
      if nodes[i].name !in m {
        m := m[nodes[i].name := 0];
      }
    }
    assert nodes[..|nodes|] == nodes;
  }

  /** `int(float64(totalReplicas) * rate)`, over the reals. */
  function Redundancy(replicas: nat, rate: real): (r: int)
    requires 0.0 <= rate <= 1.0
    ensures 0 <= r <= replicas
    ensures r as real <= replicas as real * rate < r as real + 1.0
  {
    var exact := replicas as real * rate;
    Fraction(replicas as real, rate);
    exact.Floor
  }

  lemma Fraction(x: real, rate: real)
    requires 0.0 <= x && 0.0 <= rate <= 1.0
    ensures 0.0 <= x * rate <= x
  {
  }

  class Plugin {
    var sessions: map<string, SchedulingSession>

    ghost predicate Valid()
      reads this, sessions.Values
    {
      && (forall a, b :: a in sessions && b in sessions && a != b ==> sessions[a] != sessions[b])
      && (forall a :: a in sessions ==> 0 <= sessions[a].redundancy <= sessions[a].totalReplicas)
    }

    constructor ()
      ensures Valid() && sessions == map[]
    {
      sessions := map[];
    }

    /** Replicas and redundancy are those of the first call; everything else is recomputed each time. */
    method UpdateSchedulingSession(rs: ReplicaSet, pods: seq<Pod>, nodes: seq<Node>) returns (ok: bool)
      requires Valid()
      modifies this, sessions.Values
      ensures Valid()
      ensures ok <==> rs.name in old(sessions) || (rs.rate.Some? && 0.0 <= rs.rate.value <= 1.0)
      ensures !ok ==> sessions == old(sessions)
      ensures ok ==> rs.name in sessions && sessions.Keys == old(sessions.Keys) + {rs.name}
      ensures forall a :: a in old(sessions) ==> a in sessions && sessions[a] == old(sessions)[a]
      ensures forall a :: a in old(sessions) && (a != rs.name || !ok) ==>
                sessions[a].Value() == old(sessions[a].Value())
      ensures ok && rs.name in old(sessions) ==>
                sessions[rs.name].Value() ==
                  SessionFor(old(sessions[rs.name].totalReplicas), old(sessions[rs.name].redundancy), rs.uid, pods,
                             nodes)
      ensures ok && rs.name !in old(sessions) ==>
                sessions[rs.name].Value() ==
                  SessionFor(rs.replicas, Redundancy(rs.replicas, rs.rate.value), rs.uid, pods, nodes)
    {
      hide Counted, TotalPlaced, ModeOf, SpreadInfoOf;
      if rs.name !in sessions {
        if rs.rate.None? || rs.rate.value < 0.0 || rs.rate.value > 1.0 {
          return false;
        }
        var fresh' := new SchedulingSession(rs.replicas, Redundancy(rs.replicas, rs.rate.value));
        sessions := sessions[rs.name := fresh'];
      }
      var ss := sessions[rs.name];
      ss.Refresh(rs, pods, nodes);
      ok := true;
    }
  }
}
