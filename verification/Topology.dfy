/** Which endpoints a service port may send traffic to from this node (topology.go). */
module Topology {
  import opened ProxyTypes

  const LABEL_ZONE := "topology.kubernetes.io/zone"

  /** The two feature gates `canUseTopology` consults. */
  datatype Gates = Gates(topologyAwareHints: bool, serviceTrafficDistribution: bool)

  function Filter(eps: seq<Endpoint>, keep: Endpoint -> bool): (r: seq<Endpoint>)
    ensures forall e :: e in r <==> e in eps && keep(e)
    ensures |r| <= |eps|
  {
    if eps == [] then []
    else
      var rest := Filter(eps[..|eps| - 1], keep);
      if keep(eps[|eps| - 1]) then rest + [eps[|eps| - 1]] else rest
  }

  lemma {:induction false} FilterUnique(eps: seq<Endpoint>, keep: Endpoint -> bool)
    requires UniqueAddresses(eps)
    ensures UniqueAddresses(Filter(eps, keep))
  {
    if eps != [] {
      var init := eps[..|eps| - 1];
      FilterUnique(init, keep);
      var rest := Filter(init, keep);
      forall i | 0 <= i < |rest|
        ensures rest[i].String() != eps[|eps| - 1].String()
      {
        assert rest[i] in init;
      }
    }
  }

  // ---- Specification ----

  predicate HintsEnabled(svc: ServicePort, gates: Gates) {
    && (gates.topologyAwareHints || gates.serviceTrafficDistribution)
    && (gates.serviceTrafficDistribution || svc.hintsAnnotation !in {"", "disabled", "Disabled"})
  }

  /** Hints are honoured when every ready endpoint carries some and one is for this node's zone. */
  predicate UsesTopology(eps: seq<Endpoint>, svc: ServicePort, labels: map<string, string>, gates: Gates) {
    && HintsEnabled(svc, gates)
    && (forall e :: e in eps && e.ready ==> e.zoneHints != {})
    && LABEL_ZONE in labels && labels[LABEL_ZONE] != ""
    && (exists e :: e in eps && e.ready && labels[LABEL_ZONE] in e.zoneHints)
  }

  predicate AvailableForTopology(e: Endpoint, labels: map<string, string>) {
    (if LABEL_ZONE in labels then labels[LABEL_ZONE] else "") in e.zoneHints
  }

  // The predicates that `filterEndpoints` is called with.
  predicate IsReady(e: Endpoint) { e.ready }
  predicate IsDraining(e: Endpoint) { e.serving && e.terminating }
  predicate IsLocalReady(e: Endpoint) { e.isLocal && e.ready }
  predicate IsLocalDraining(e: Endpoint) { e.isLocal && e.serving && e.terminating }
  function ReadyInZone(labels: map<string, string>): Endpoint -> bool {
    (e: Endpoint) => e.ready && AvailableForTopology(e, labels)
  }

  function ReadyEndpoints(eps: seq<Endpoint>, svc: ServicePort, labels: map<string, string>,
                          gates: Gates): seq<Endpoint> {
    if UsesTopology(eps, svc, labels, gates)
    then Filter(eps, ReadyInZone(labels))
    else Filter(eps, IsReady)
  }

  function ClusterEndpoints(eps: seq<Endpoint>, svc: ServicePort, labels: map<string, string>,
                            gates: Gates): seq<Endpoint> {
    if !svc.UsesClusterEndpoints() then []
    else
      var ready := ReadyEndpoints(eps, svc, labels, gates);
      if ready != [] then ready else Filter(eps, IsDraining)
  }

  function LocalEndpoints(eps: seq<Endpoint>, svc: ServicePort): seq<Endpoint> {
    if !svc.UsesLocalEndpoints() then []
    else
      var ready := Filter(eps, IsLocalReady);
      if ready != [] then ready else Filter(eps, IsLocalDraining)
  }

  predicate HasUsable(eps: seq<Endpoint>) {
    exists e :: e in eps && e.Usable()
  }

  /** `all` lists the union of the two lists, once each. */
  ghost predicate ReachableList(all: seq<Endpoint>, cluster: seq<Endpoint>, local: seq<Endpoint>) {
    && UniqueAddresses(all)
    && forall e :: e in all <==> e in cluster || e in local
  }

  // ---- What the lists are, said by the fields of the service port and its endpoints alone ----

  /** Something outside the cluster can reach the service port. */
  ghost predicate Exposed(svc: ServicePort) {
    svc.nodePort != 0 || svc.loadBalancerVIPs != [] || svc.externalIPs != []
  }

  /** Traffic is kept in the node's zone. */
  ghost predicate KeptInZone(eps: seq<Endpoint>, svc: ServicePort, labels: map<string, string>, gates: Gates) {
    && (|| gates.serviceTrafficDistribution
        || (gates.topologyAwareHints && svc.hintsAnnotation != "" && svc.hintsAnnotation != "disabled"
            && svc.hintsAnnotation != "Disabled"))
    && "topology.kubernetes.io/zone" in labels && labels["topology.kubernetes.io/zone"] != ""
    && (forall i :: 0 <= i < |eps| && eps[i].ready ==> |eps[i].zoneHints| > 0)
    && (exists i :: 0 <= i < |eps| && eps[i].ready && labels["topology.kubernetes.io/zone"] in eps[i].zoneHints)
  }

  /**
   The endpoints that Cluster-policy traffic may go to: ready ones, of the node's zone if kept
   there, else draining ones.
   */
  ghost predicate MayServeCluster(e: Endpoint, eps: seq<Endpoint>, svc: ServicePort, labels: map<string, string>,
                                  gates: Gates) {
    && e in eps && (!svc.internalPolicyLocal || Exposed(svc))
    && if exists r :: r in eps && r.ready
       then e.ready && (KeptInZone(eps, svc, labels, gates) ==> labels["topology.kubernetes.io/zone"] in e.zoneHints)
       else e.serving && e.terminating
  }

  /** The endpoints that Local-policy traffic may go to: those of this node that are ready, else the draining ones. */
  ghost predicate MayServeLocal(e: Endpoint, eps: seq<Endpoint>, svc: ServicePort) {
    && e in eps && e.isLocal && (svc.internalPolicyLocal || (svc.externalPolicyLocal && Exposed(svc)))
    && if exists r :: r in eps && r.isLocal && r.ready then e.ready else e.serving && e.terminating
  }

  lemma TopologyIs(eps: seq<Endpoint>, svc: ServicePort, labels: map<string, string>, gates: Gates)
    ensures UsesTopology(eps, svc, labels, gates) <==> KeptInZone(eps, svc, labels, gates)
  {
    if UsesTopology(eps, svc, labels, gates) {
      var e :| e in eps && e.ready && labels[LABEL_ZONE] in e.zoneHints;
      var i :| 0 <= i < |eps| && eps[i] == e;
      forall j | 0 <= j < |eps| && eps[j].ready
        ensures |eps[j].zoneHints| > 0
      {
        assert eps[j] in eps && eps[j].zoneHints != {};
      }
    }
  }

  /** The cluster list holds exactly the endpoints that may serve Cluster-policy traffic. */
  lemma ClusterListIs(eps: seq<Endpoint>, svc: ServicePort, labels: map<string, string>, gates: Gates)
    ensures forall e :: e in ClusterEndpoints(eps, svc, labels, gates) <==> MayServeCluster(e, eps, svc, labels, gates)
  {
    TopologyIs(eps, svc, labels, gates);
    hide KeptInZone;
    var ready := ReadyEndpoints(eps, svc, labels, gates);
    assert ready != [] ==> ready[0] in ready;
    if r :| r in eps && r.ready {
      if UsesTopology(eps, svc, labels, gates) {
        var z :| z in eps && z.ready && labels[LABEL_ZONE] in z.zoneHints;
        assert z in ready;
      } else {
        assert r in ready;
      }
    }
  }

  /** The local list holds exactly the endpoints that may serve Local-policy traffic. */
  lemma LocalListIs(eps: seq<Endpoint>, svc: ServicePort)
    ensures forall e :: e in LocalEndpoints(eps, svc) <==> MayServeLocal(e, eps, svc)
  {
    var ready := Filter(eps, IsLocalReady);
    assert ready != [] ==> ready[0] in ready;
    if r :| r in eps && r.isLocal && r.ready {
      assert r in ready;
    }
  }

  /** When Local endpoints are used there is one exactly if some endpoint of this node is usable. */
  lemma LocalNonEmptyIffUsable(eps: seq<Endpoint>, svc: ServicePort)
    requires svc.internalPolicyLocal || (svc.externalPolicyLocal && Exposed(svc))
    ensures LocalEndpoints(eps, svc) != [] <==>
              exists e :: e in eps && e.isLocal && (e.ready || (e.serving && e.terminating))
  {
    LocalListIs(eps, svc);
    var local := LocalEndpoints(eps, svc);
    hide LocalEndpoints;
    assert local != [] ==> local[0] in local;
    if e :| e in eps && e.isLocal && (e.ready || (e.serving && e.terminating)) {
      if r :| r in eps && r.isLocal && r.ready {
        assert MayServeLocal(r, eps, svc);
      } else {
        assert MayServeLocal(e, eps, svc);
      }
    }
  }

  // ---- What the policy lists guarantee, for all policies and topologies ----

  /** A service port that uses Cluster endpoints has one exactly when any endpoint is usable anywhere. */
  lemma ClusterNonEmptyIffUsable(eps: seq<Endpoint>, svc: ServicePort, labels: map<string, string>, gates: Gates)
    requires svc.UsesClusterEndpoints()
    ensures ClusterEndpoints(eps, svc, labels, gates) != [] <==> HasUsable(eps)
  {
    var ready := ReadyEndpoints(eps, svc, labels, gates);
    var draining := Filter(eps, IsDraining);
    var cluster := ClusterEndpoints(eps, svc, labels, gates);
    if cluster != [] {
      assert cluster[0] in cluster;
      assert cluster[0] in eps && cluster[0].Usable();
    }
    if HasUsable(eps) {
      var e :| e in eps && e.Usable();
      if e.ready {
        if UsesTopology(eps, svc, labels, gates) {
          var z :| z in eps && z.ready && labels[LABEL_ZONE] in z.zoneHints;
          assert z in ready;
        } else {
          assert e in ready;
        }
      } else {
        assert e in draining;
      }
    }
  }

  /** Policy lists only ever hold usable endpoints of the service, and local ones for Local policy. */
  lemma ListsAreSound(eps: seq<Endpoint>, svc: ServicePort, labels: map<string, string>, gates: Gates)
    ensures forall e :: e in ClusterEndpoints(eps, svc, labels, gates) ==> e in eps && e.Usable()
    ensures forall e :: e in LocalEndpoints(eps, svc) ==> e in eps && e.Usable() && e.isLocal
    ensures UniqueAddresses(eps) ==> UniqueAddresses(ClusterEndpoints(eps, svc, labels, gates))
    ensures UniqueAddresses(eps) ==> UniqueAddresses(LocalEndpoints(eps, svc))
  {
    if UniqueAddresses(eps) {
      FilterUnique(eps, ReadyInZone(labels));
      FilterUnique(eps, IsReady);
      FilterUnique(eps, IsDraining);
      FilterUnique(eps, IsLocalReady);
      FilterUnique(eps, IsLocalDraining);
    }
  }

  /** The superset claim behind the shortcut: without topology, and with a ready local list, nothing is missed. */
  lemma ClusterCoversLocal(eps: seq<Endpoint>, svc: ServicePort, labels: map<string, string>, gates: Gates)
    requires svc.UsesClusterEndpoints() && !UsesTopology(eps, svc, labels, gates)
    requires forall e :: e in LocalEndpoints(eps, svc) ==> e.ready
    ensures forall e :: e in LocalEndpoints(eps, svc) ==> e in ClusterEndpoints(eps, svc, labels, gates)
  {
    ListsAreSound(eps, svc, labels, gates);
    forall e | e in LocalEndpoints(eps, svc)
      ensures e in ClusterEndpoints(eps, svc, labels, gates)
    {
      assert e in ReadyEndpoints(eps, svc, labels, gates);
    }
  }

  // ---- The code ----

  method FilterEndpoints(eps: seq<Endpoint>, keep: Endpoint -> bool) returns (r: seq<Endpoint>)
    ensures r == Filter(eps, keep)
  {
    r := [];
    for i := 0 to |eps|
      invariant r == Filter(eps[..i], keep)
    {
      assert eps[..i + 1][..i] == eps[..i];
      if keep(eps[i]) {
        r := r + [eps[i]];
      }
    }
    assert eps[..|eps|] == eps;
  }

  method CanUseTopology(eps: seq<Endpoint>, svc: ServicePort, labels: map<string, string>, gates: Gates)
    returns (can: bool)
    ensures can == UsesTopology(eps, svc, labels, gates)
  {
    if !gates.topologyAwareHints && !gates.serviceTrafficDistribution {
      return false;
    }
    if !gates.serviceTrafficDistribution {
      if svc.hintsAnnotation == "" || svc.hintsAnnotation == "disabled" || svc.hintsAnnotation == "Disabled" {
        return false;
      }
    }
    var foundZone := LABEL_ZONE in labels;
    var zone := if foundZone then labels[LABEL_ZONE] else "";
    var hasEndpointForZone := false;
    for i := 0 to |eps|
      invariant forall k :: 0 <= k < i && eps[k].ready ==> eps[k].zoneHints != {} && foundZone && zone != ""
      invariant hasEndpointForZone <==> exists k :: 0 <= k < i && eps[k].ready && zone in eps[k].zoneHints
    {
      var e := eps[i];
      if e.ready {
        if e.zoneHints == {} {
          return false;
        }
        if !foundZone || zone == "" {
          return false;
        }
        if zone in e.zoneHints {
          hasEndpointForZone := true;
        }
      }
    }
    return hasEndpointForZone;
  }

  /** The pre-scan and the choice of Local endpoints it leads to. */
  method PickLocal(eps: seq<Endpoint>, svc: ServicePort, any: bool)
    returns (hasAny: bool, local: seq<Endpoint>, useServingTerminating: bool)
    requires svc.UsesLocalEndpoints()
    requires any ==> HasUsable(eps)
    ensures hasAny == HasUsable(eps)
    ensures local == LocalEndpoints(eps, svc)
    ensures !useServingTerminating ==> forall e :: e in local ==> e.ready
  {
    hasAny, local, useServingTerminating := any, [], false;
    var hasLocalReady, hasLocalServingTerminating := false, false;
    for i := 0 to |eps|
      invariant hasAny <==> any || exists k :: 0 <= k < i && eps[k].Usable()
      invariant hasLocalReady <==> exists k :: 0 <= k < i && IsLocalReady(eps[k])
      invariant hasLocalServingTerminating <==> exists k :: 0 <= k < i && !eps[k].ready && IsLocalDraining(eps[k])
    {
      var e := eps[i];
      if e.ready {
        hasAny := true;
        if e.isLocal {
          hasLocalReady := true;
        }
      } else if e.serving && e.terminating {
        hasAny := true;
        if e.isLocal {
          hasLocalServingTerminating := true;
        }
      }
    }
    ghost var ready, draining := Filter(eps, IsLocalReady), Filter(eps, IsLocalDraining);
    assert ready != [] ==> ready[0] in eps;
    assert draining != [] ==> draining[0] in eps;
    if hasLocalReady {
      local := FilterEndpoints(eps, IsLocalReady);
    } else if hasLocalServingTerminating {
      useServingTerminating := true;
      local := FilterEndpoints(eps, IsLocalDraining);
    }
  }

  /** The two policy lists, the list of all reachable endpoints and whether any endpoint is usable at all. */
  method CategorizeEndpoints(eps: seq<Endpoint>, svc: ServicePort, labels: map<string, string>, gates: Gates)
    returns (cluster: seq<Endpoint>, local: seq<Endpoint>, all: seq<Endpoint>, hasAny: bool)
    ensures cluster == ClusterEndpoints(eps, svc, labels, gates)
    ensures local == LocalEndpoints(eps, svc)
    ensures hasAny == HasUsable(eps)
    ensures UniqueAddresses(eps) ==> ReachableList(all, cluster, local)
    ensures forall e :: e in cluster <==> MayServeCluster(e, eps, svc, labels, gates)
    ensures forall e :: e in local <==> MayServeLocal(e, eps, svc)
    ensures hasAny <==> exists e :: e in eps && (e.ready || (e.serving && e.terminating))
  {
    hide MayServeCluster, MayServeLocal;
    ClusterListIs(eps, svc, labels, gates);
    LocalListIs(eps, svc);
    var useTopology, useServingTerminating := false, false;
    cluster, local, all, hasAny := [], [], [], false;
    ListsAreSound(eps, svc, labels, gates);

    if svc.UsesClusterEndpoints() {
      useTopology := CanUseTopology(eps, svc, labels, gates);
      if useTopology {
        cluster := FilterEndpoints(eps, ReadyInZone(labels));
      } else {
        cluster := FilterEndpoints(eps, IsReady);
      }
      if |cluster| == 0 {
        cluster := FilterEndpoints(eps, IsDraining);
      }
      hasAny := |cluster| > 0;
      ClusterNonEmptyIffUsable(eps, svc, labels, gates);
    }

    if !svc.UsesLocalEndpoints() {
      all := cluster;
      return;
    }

    hasAny, local, useServingTerminating := PickLocal(eps, svc, hasAny);

    if !svc.UsesClusterEndpoints() {
      all := local;
      return;
    }
    if !useTopology && !useServingTerminating {
      ClusterCoversLocal(eps, svc, labels, gates);
      all := cluster;
      return;
    }
    all := MergeLists(cluster, local, eps);
  }

  /** The merge through a map keyed by address, read back in arbitrary order. */
  method MergeLists(cluster: seq<Endpoint>, local: seq<Endpoint>, ghost eps: seq<Endpoint>) returns (all: seq<Endpoint>)
    requires forall e :: e in cluster || e in local ==> e in eps
    ensures UniqueAddresses(eps) ==> ReachableList(all, cluster, local)
  {
    hide ProxyTypes.Endpoint.String;
    var byAddress: map<string, Endpoint> := map[];
    for i := 0 to |cluster|
      invariant forall a :: a in byAddress ==> byAddress[a] in cluster[..i] && byAddress[a].String() == a
      invariant forall k :: 0 <= k < i ==> cluster[k].String() in byAddress
    {
      byAddress := byAddress[cluster[i].String() := cluster[i]];
    }
    for i := 0 to |local|
      invariant forall a :: a in byAddress ==>
                  (byAddress[a] in cluster || byAddress[a] in local[..i]) && byAddress[a].String() == a
      invariant forall k :: 0 <= k < |cluster| ==> cluster[k].String() in byAddress
      invariant forall k :: 0 <= k < i ==> local[k].String() in byAddress
    {
      byAddress := byAddress[local[i].String() := local[i]];
    }
    all := [];
    var keys := byAddress.Keys;
    while keys != {}
      invariant keys <= byAddress.Keys
      invariant UniqueAddresses(all)
      invariant forall e :: e in all <==> e.String() in byAddress && e.String() !in keys && byAddress[e.String()] == e
    {
      var a :| a in keys;
      keys := keys - {a};
      all := all + [byAddress[a]];
    }
    if UniqueAddresses(eps) {
      forall e | e in cluster || e in local
        ensures e in all
      {
        var same := byAddress[e.String()];
        assert same in eps && e in eps && same.String() == e.String();
        var i :| 0 <= i < |eps| && eps[i] == same;
        var j :| 0 <= j < |eps| && eps[j] == e;
        assert i == j;
      }
    }
  }
}
