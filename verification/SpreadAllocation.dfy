/** `getAllocatableNodes` (podspread.go): which nodes a pod may go to, and when there are none. */
module SpreadAllocation {
  import opened Integers
  import opened ProxyTypes
  import opened Balance
  import opened PodSpread

  const CONTROL_PLANE := "node-role.kubernetes.io/control-plane"

  datatype Toleration = Toleration(key: string, operator: string, effect: string)

  /** The pod may also run on control plane nodes. */
  predicate Tolerates(ts: seq<Toleration>) {
    Toleration(CONTROL_PLANE, "Exists", "NoSchedule") in ts
  }

  predicate IsControlPlane(nodes: seq<Node>, name: string) {
    exists n :: n in nodes && n.name == name && n.controlPlane
  }

  // ---- Specification ----

  ghost function AreaCounts(ss: Session): Counts {
    map a | a in ss.info :: SumOver(ss.deployed, ss.info[a].Keys)
  }

  predicate HasWorker(area: map<string, bool>) {
    exists x :: x in area && !area[x]
  }

  /** Of all areas one with the fewest replicas, and not one the pod is kept out of. */
  ghost predicate OpenArea(ss: Session, tolerated: bool, a: string) {
    a in ss.info && IsLeast(AreaCounts(ss), a) && (tolerated || HasWorker(ss.info[a]))
  }

  ghost predicate AreaAllowed(ss: Session, tolerated: bool, x: string) {
    exists a :: OpenArea(ss, tolerated, a) && x in ss.info[a] && (tolerated || !ss.info[a][x])
  }

  predicate Eligible(nodes: seq<Node>, tolerated: bool, x: string) {
    tolerated || !IsControlPlane(nodes, x)
  }

  function EligibleCounts(ss: Session, nodes: seq<Node>, tolerated: bool): Counts {
    map x | x in ss.deployed && Eligible(nodes, tolerated, x) :: ss.deployed[x]
  }

  /** The nodes a pod may go to. */
  ghost predicate Allowed(ss: Session, nodes: seq<Node>, tolerated: bool, x: string) {
    if ss.totalDeployed >= ss.redundancy then x in Names(nodes)
    else if ss.mode == ByNode then IsLeast(EligibleCounts(ss, nodes, tolerated), x)
    else AreaAllowed(ss, tolerated, x)
  }

  // ---- The code ----

  lemma {:induction false} SumWithin(m: Counts, keys: set<string>, rest: set<string>)
    requires keys <= rest
    ensures SumOver(m, keys) <= SumOver(m, rest)
    decreases |keys|
  {
    if keys != {} {
      var x :| x in keys;
      SumRemove(m, keys, x);
      SumRemove(m, rest, x);
      SumWithin(m, keys - {x}, rest - {x});
    }
  }

  /** No sum of counts exceeds the total. */
  lemma SumAtMostTotal(m: Counts, keys: set<string>)
    ensures SumOver(m, keys) <= Sum(m)
  {
    var inside, outside := keys * m.Keys, keys - m.Keys;
    SumOfZeros(m, outside);
    SumUnion(m, inside, outside);
    assert inside + outside == keys;
    SumWithin(m, inside, m.Keys);
  }

  lemma {:induction false} SumUnion(m: Counts, a: set<string>, b: set<string>)
    requires a !! b
    ensures SumOver(m, a + b) == SumOver(m, a) + SumOver(m, b)
    decreases |a|
  {
    if a == {} {
      assert a + b == b;
    } else {
      var x :| x in a;
      SumRemove(m, a, x);
      SumRemove(m, a + b, x);
      assert a + b - {x} == (a - {x}) + b;
      SumUnion(m, a - {x}, b);
    }
  }

  method CountArea(deployed: Counts, area: map<string, bool>) returns (n: nat, hasNonCP: bool)
    ensures n == SumOver(deployed, area.Keys) && hasNonCP == HasWorker(area)
  {
    n, hasNonCP := 0, false;
    var rest := area.Keys;
    while rest != {}
      invariant rest <= area.Keys
      invariant n + SumOver(deployed, rest) == SumOver(deployed, area.Keys)
      invariant hasNonCP <==> exists x :: x in area && x !in rest && !area[x]
    {
      var x :| x in rest;
      SumRemove(deployed, rest, x);
      rest := rest - {x};
      if !area[x] {
        hasNonCP := true;
      }
      n := n + (if x in deployed then deployed[x] else 0);
    }
  }

  method CountAreas(deployed: Counts, info: SpreadInfo) returns (counts: Counts, cpOnly: set<string>)
    ensures counts.Keys == info.Keys && forall a :: a in info ==> counts[a] == SumOver(deployed, info[a].Keys)
    ensures forall a :: a in cpOnly <==> a in info && !HasWorker(info[a])
  {
    counts, cpOnly := map[], {};
    var rest := info.Keys;
    while rest != {}
      invariant rest <= info.Keys && counts.Keys == info.Keys - rest
      invariant forall a :: a in counts ==> counts[a] == SumOver(deployed, info[a].Keys)
      invariant forall a :: a in cpOnly <==> a in info && a !in rest && !HasWorker(info[a])
    {
      hide HasWorker, SumOver;
      var a :| a in rest;
      rest := rest - {a};
      var n, hasNonCP := CountArea(deployed, info[a]);
      if !hasNonCP {
        cpOnly := cpOnly + {a};
      }
      counts := counts[a := n];
    }
  }

  /** The least of the counts of keys that are not left out. */
  method Minimum(counts: Counts, leftOut: set<string>) returns (least: nat)
    requires forall a :: a in counts ==> counts[a] <= MAX64
    ensures forall a :: a in counts && a !in leftOut ==> least <= counts[a]
    ensures counts.Keys <= leftOut || exists a :: a in counts && a !in leftOut && counts[a] == least
  {
    least := MAX64;
    var rest := counts.Keys;
    while rest != {}
      invariant rest <= counts.Keys
      invariant forall a :: a in counts && a !in leftOut && a !in rest ==> least <= counts[a]
      invariant least <= MAX64
      invariant least == MAX64 || exists a :: a in counts && a !in leftOut && counts[a] == least
    {
      var a :| a in rest;
      rest := rest - {a};
      if a !in leftOut && counts[a] < least {
        least := counts[a];
      }
    }
    if least == MAX64 && !(counts.Keys <= leftOut) {
      var a :| a in counts && a !in leftOut;
      assert counts[a] == least;
    }
  }

  method ToList(s: set<string>) returns (r: seq<string>)
    ensures forall x :: x in r <==> x in s
  {
    r := [];
    var rest := s;
    while rest != {}
      invariant rest <= s
      invariant forall x :: x in r <==> x in s && x !in rest
    {
      var x :| x in rest;
      rest := rest - {x};
      r := r + [x];
    }
  }

  method NodesOfArea(area: map<string, bool>, tolerated: bool, allowed: set<string>) returns (allowed': set<string>)
    ensures forall x :: x in allowed' <==> x in allowed || (x in area && (tolerated || !area[x]))
  {
    allowed' := allowed;
    var rest := area.Keys;
    while rest != {}
      invariant rest <= area.Keys
      invariant forall x :: x in allowed' <==> x in allowed || (x in area && x !in rest && (tolerated || !area[x]))
    {
      var x :| x in rest;
      rest := rest - {x};
      if !(area[x] && !tolerated) {
        allowed' := allowed' + {x};
      }
    }
  }

  /** The region and zone modes. */
  method AllowedByArea(ss: SchedulingSession, tolerated: bool) returns (r: seq<string>)
    requires Sum(ss.deployedNodes) <= MAX64
    ensures forall x :: x in r <==> AreaAllowed(ss.Value(), tolerated, x)
  {
    var info := ss.spreadInfo;
    var counts, cpOnly := CountAreas(ss.deployedNodes, info);
    forall a | a in info
      ensures counts[a] <= MAX64
    {
      SumAtMostTotal(ss.deployedNodes, info[a].Keys);
    }
    var least := Minimum(counts, {});
    ghost var v := ss.Value();
    assert counts == AreaCounts(v);
    var allowed := NodesOfAreas(info, counts, cpOnly, least, tolerated, v);
    r := ToList(allowed);
  }

  /** The second half: the nodes of the least-loaded areas that are not left out. */
  method NodesOfAreas(info: SpreadInfo, counts: Counts, cpOnly: set<string>, least: nat, tolerated: bool,
                      ghost v: Session)
    returns (allowed: set<string>)
    requires v.info == info && counts == AreaCounts(v) && forall a :: a in cpOnly <==> a in info && !HasWorker(info[a])
    requires (forall a :: a in counts ==> least <= counts[a])
    requires (counts == map[] || exists a :: a in counts && counts[a] == least)
    ensures forall x :: x in allowed <==> AreaAllowed(v, tolerated, x)
  {
    hide HasWorker, SumOver;
    allowed := {};
    var rest := info.Keys;
    while rest != {}
      invariant rest <= info.Keys
      invariant forall x :: x in allowed <==>
                  exists a :: a !in rest && OpenArea(v, tolerated, a) && x in info[a] && (tolerated || !info[a][x])
    {
      var a :| a in rest;
      ghost var before := rest;
      rest := rest - {a};
      assert OpenArea(v, tolerated, a) <==> (tolerated || a !in cpOnly) && counts[a] == least;
      if (tolerated || a !in cpOnly) && counts[a] == least {
        allowed := NodesOfArea(info[a], tolerated, allowed);
      }
      OneMoreArea(before, rest, a, v, tolerated);
    }
  }

  lemma OneMoreArea(before: set<string>, rest: set<string>, a: string, v: Session, tolerated: bool)
    requires a in before && rest == before - {a}
    ensures forall b :: b !in rest && OpenArea(v, tolerated, b) <==>
              (b !in before && OpenArea(v, tolerated, b)) || (b == a && OpenArea(v, tolerated, a))
  {
    hide OpenArea;
  }

  /** The control plane nodes among the counted ones. */
  method ControlPlaneOf(nodes: seq<Node>, keys: set<string>) returns (cp: set<string>)
    ensures forall x :: x in cp <==> x in keys && IsControlPlane(nodes, x)
  {
    cp := {};
    var rest := keys;
    while rest != {}
      invariant rest <= keys
      invariant forall x :: x in cp <==> x in keys && x !in rest && IsControlPlane(nodes, x)
    {
      hide IsControlPlane;
      var x :| x in rest;
      rest := rest - {x};
      var isCP := FindControlPlane(nodes, x);
      if isCP {
        cp := cp + {x};
      }
    }
  }

  /** `isControlPlane`. */
  method FindControlPlane(nodes: seq<Node>, name: string) returns (found: bool)
    ensures found == IsControlPlane(nodes, name)
  {
    for i := 0 to |nodes|
      invariant forall j :: 0 <= j < i ==> !(nodes[j].name == name && nodes[j].controlPlane)
    {
      if nodes[i].name == name && nodes[i].controlPlane {
        return true;
      }
    }
    return false;
  }

  /** The node mode. */
  method AllowedByNode(ss: SchedulingSession, tolerated: bool, nodes: seq<Node>) returns (r: seq<string>)
    requires Sum(ss.deployedNodes) <= MAX64
    ensures forall x :: x in r <==> IsLeast(EligibleCounts(ss.Value(), nodes, tolerated), x)
  {
    var deployed := ss.deployedNodes;
    var leftOut: set<string> := {};
    if !tolerated {
      leftOut := ControlPlaneOf(nodes, deployed.Keys);
    }
    forall x | x in deployed
      ensures deployed[x] <= MAX64
    {
      SumRemove(deployed, deployed.Keys, x);
    }
    hide IsControlPlane, SumOver;
    ghost var c := EligibleCounts(ss.Value(), nodes, tolerated);
    assert forall x :: x in c <==> x in deployed && x !in leftOut;
    var least := Minimum(deployed, leftOut);
    var allowed := Filter(deployed, leftOut, least);
    r := ToList(allowed);
  }

  /** The keys with this count that are not left out. */
  method Filter(counts: Counts, leftOut: set<string>, count: nat) returns (allowed: set<string>)
    ensures forall x :: x in allowed <==> x in counts && x !in leftOut && counts[x] == count
  {
    allowed := {};
    var rest := counts.Keys;
    while rest != {}
      invariant rest <= counts.Keys
      invariant forall x :: x in allowed <==> x in counts && x !in rest && x !in leftOut && counts[x] == count
    {
      var x :| x in rest;
      rest := rest - {x};
      if x !in leftOut && counts[x] == count {
        allowed := allowed + {x};
      }
    }
  }

  /** `getAllocatableNodes`: the list holds exactly the allowed nodes. */
  method GetAllocatableNodes(ss: SchedulingSession, tolerations: seq<Toleration>, nodes: seq<Node>)
    returns (r: seq<string>)
    requires Sum(ss.deployedNodes) <= MAX64
    ensures forall x :: x in r <==> Allowed(ss.Value(), nodes, Tolerates(tolerations), x)
  {
    hide Sum, AreaAllowed, IsLeast, EligibleCounts;
    if ss.totalDeployed >= ss.redundancy {
      r := [];
      for i := 0 to |nodes|
        invariant forall x :: x in r <==> exists j :: 0 <= j < i && nodes[j].name == x
      {
        r := r + [nodes[i].name];
      }
      return;
    }
    var tolerated := false;
    for i := 0 to |tolerations|
      invariant tolerated <==>
                  exists j :: 0 <= j < i && tolerations[j] == Toleration(CONTROL_PLANE, "Exists", "NoSchedule")
    {
      var t := tolerations[i];
      if t.key == CONTROL_PLANE && t.operator == "Exists" && t.effect == "NoSchedule" {
        tolerated := true;
      }
    }
    assert tolerated == Tolerates(tolerations);
    if ss.spreadMode == ByNode {
      r := AllowedByNode(ss, tolerated, nodes);
    } else {
      r := AllowedByArea(ss, tolerated);
    }
  }

  // ---- When is there a node to go to? ----

  /** Enough replicas placed: every node. */
  lemma RedundantProgress(ss: Session, nodes: seq<Node>, tolerated: bool)
    requires ss.totalDeployed >= ss.redundancy
    ensures (exists x :: Allowed(ss, nodes, tolerated, x)) <==> nodes != []
  {
    if nodes != [] {
      assert nodes[0] in nodes;
      assert Allowed(ss, nodes, tolerated, nodes[0].name);
    }
  }

  /** Node mode: there is a node to go to exactly when some counted node is eligible. */
  lemma NodeProgress(ss: Session, nodes: seq<Node>, tolerated: bool)
    requires ss.totalDeployed < ss.redundancy && ss.mode == ByNode
    ensures (exists x :: Allowed(ss, nodes, tolerated, x)) <==>
              (exists x :: x in ss.deployed && Eligible(nodes, tolerated, x))
  {
    var c := EligibleCounts(ss, nodes, tolerated);
    if x :| x in ss.deployed && Eligible(nodes, tolerated, x) {
      LeastExists(c, x);
      var y :| IsLeast(c, y);
      assert Allowed(ss, nodes, tolerated, y);
    }
    if x :| Allowed(ss, nodes, tolerated, x) {
      assert x in c;
    }
  }

  /** Area modes: the code takes the minimum over all areas, so a least-loaded area must itself be open. */
  lemma AreaProgress(ss: Session, nodes: seq<Node>, tolerated: bool)
    requires ss.totalDeployed < ss.redundancy && ss.mode != ByNode
    requires forall a :: a in ss.info ==> ss.info[a] != map[]
    ensures (exists x :: Allowed(ss, nodes, tolerated, x)) <==> (exists a :: OpenArea(ss, tolerated, a))
  {
    if a :| OpenArea(ss, tolerated, a) {
      var x :| x in ss.info[a] && (tolerated || !ss.info[a][x]);
      assert AreaAllowed(ss, tolerated, x);
      assert Allowed(ss, nodes, tolerated, x);
    }
    if x :| Allowed(ss, nodes, tolerated, x) {
      assert AreaAllowed(ss, tolerated, x);
    }
  }

  /** With a worker in every area, or a pod that tolerates control planes, the list is never empty. */
  lemma AreaProgressIfOpen(ss: Session, nodes: seq<Node>, tolerated: bool)
    requires ss.totalDeployed < ss.redundancy && ss.mode != ByNode && ss.info != map[]
    requires forall a :: a in ss.info ==> ss.info[a] != map[] && (tolerated || HasWorker(ss.info[a]))
    ensures exists x :: Allowed(ss, nodes, tolerated, x)
  {
    var a :| a in ss.info;
    var c := AreaCounts(ss);
    LeastExists(c, a);
    var b :| IsLeast(c, b);
    assert OpenArea(ss, tolerated, b);
    AreaProgress(ss, nodes, tolerated);
  }

  /** A control-plane-only area with fewer replicas than every other area closes them all. */
  lemma ClosedByControlPlane(ss: Session, nodes: seq<Node>, cp: string)
    requires ss.totalDeployed < ss.redundancy && ss.mode != ByNode
    requires cp in ss.info && !HasWorker(ss.info[cp])
    requires forall a :: a in ss.info && HasWorker(ss.info[a]) ==> AreaCounts(ss)[cp] < AreaCounts(ss)[a]
    ensures forall x :: !Allowed(ss, nodes, false, x)
  {
  }

  const STUCK_NODES := [Node("cp", true, Some("a"), None), Node("w", false, Some("b"), None)]
  const STUCK_PODS := [Pod(Some("rs"), [true], "w")]

  lemma StuckAreas()
    ensures ModeOf(STUCK_NODES) == ByZone
    ensures SpreadInfoOf(STUCK_NODES) == map["a" := map["cp" := true], "b" := map["w" := false]]
  {
    var cp, w := STUCK_NODES[0], STUCK_NODES[1];
    assert STUCK_NODES[..1] == [cp] && [cp][..0] == [];
    assert InfoOf([cp], false) == map["a" := map["cp" := true]];
    assert InfoOf([cp], true) == map[] && InfoOf(STUCK_NODES, true) == map[];
    assert "a" != "b" by { assert "a"[0] != "b"[0]; }
    assert InfoOf(STUCK_NODES, false) == map["a" := map["cp" := true], "b" := map["w" := false]];
    assert InfoOf(STUCK_NODES, false).Keys == {"a", "b"};
    assert |InfoOf(STUCK_NODES, false)| == |{"a", "b"}|;
  }

  lemma StuckCounts()
    ensures TotalPlaced("rs", STUCK_PODS) == 1
    ensures At(Counted(Zeros(STUCK_NODES), "rs", STUCK_PODS), "w") == 1
    ensures At(Counted(Zeros(STUCK_NODES), "rs", STUCK_PODS), "cp") == 0
  {
    var pod := STUCK_PODS[0];
    assert STUCK_PODS[..0] == [] && [true][..0] == [] && Trues([true]) == 1;
    assert Counted(Zeros(STUCK_NODES), "rs", []) == Zeros(STUCK_NODES);
    assert TotalPlaced("rs", []) == 0;
    assert Placements("rs", pod) == 1;
    assert "w" != "cp" by { assert |"w"| != |"cp"|; }
  }

  /** A zone of control planes only, and one replica in the other zone: no node is left, although a worker is. */
  lemma AreaStuck()
    ensures var ss := SessionFor(2, 2, "rs", STUCK_PODS, STUCK_NODES);
            && ss.totalDeployed < ss.redundancy && ss.mode == ByZone
            && (exists x :: x in Names(STUCK_NODES) && Eligible(STUCK_NODES, false, x))
            && (forall x :: !Allowed(ss, STUCK_NODES, false, x))
  {
    hide InfoOf, Counted, ModeOf, SpreadInfoOf, TotalPlaced;
    StuckAreas();
    StuckCounts();
    var ss := SessionFor(2, 2, "rs", STUCK_PODS, STUCK_NODES);
    SumRemove(ss.deployed, {"cp"}, "cp");
    SumRemove(ss.deployed, {"w"}, "w");
    assert {"cp"} - {"cp"} == {} && {"w"} - {"w"} == {};
    assert ss.info["a"].Keys == {"cp"} && ss.info["b"].Keys == {"w"};
    assert AreaCounts(ss)["a"] == 0 && AreaCounts(ss)["b"] == 1;
    ClosedByControlPlane(ss, STUCK_NODES, "a");
    assert STUCK_NODES[1] in STUCK_NODES;
    assert "w" != "cp" by { assert |"w"| != |"cp"|; }
    assert "w" in Names(STUCK_NODES) && Eligible(STUCK_NODES, false, "w");
  }
}
