/** `ServiceChangeTracker` and `ServicePortMap` (servicechangetracker.go): coalesced service changes. */
module ServiceTracker {
  import opened Strings
  import opened ProxyTypes

  datatype PortSpec = PortSpec(name: string, protocol: Protocol, port: nat, nodePort: nat)

  /**
   A Service object as the proxier of one IP family reads it: addresses and ranges of the other
   family are filtered out; `skipped` is `ShouldSkipService` (headless or ExternalName), and
   `clusterIP` is "" when the service has none of this family.
   */
  datatype Service = Service(
    nn: NamespacedName,
    skipped: bool,
    clusterIP: string,
    ports: seq<PortSpec>,
    loadBalancerVIPs: seq<string>,
    clientIPAffinity: bool,
    externalIPs: seq<string>,
    loadBalancerSourceRanges: seq<Cidr>,
    externalPolicyLocal: bool,
    internalPolicyLocal: bool,
    hintsAnnotation: string)
  {
    predicate PrintableIPs() {
      && SpaceFree(clusterIP)
      && (forall i :: 0 <= i < |externalIPs| ==> SpaceFree(externalIPs[i]))
      && (forall i :: 0 <= i < |loadBalancerVIPs| ==> SpaceFree(loadBalancerVIPs[i]))
    }
  }

  type ServicePortMap = map<ServicePortName, ServicePort>

  /** A Go map value: `reflect.DeepEqual` tells nil from empty. */
  datatype PortMap = NilMap | Ports(m: ServicePortMap)
  {
    function Get(): ServicePortMap { if NilMap? then map[] else m }
  }

  /** `newBaseServiceInfo`. */
  function BaseServiceInfo(svc: Service, port: PortSpec): ServicePort {
    ServicePort(svc.clusterIP, port.port, port.protocol, port.nodePort, svc.loadBalancerVIPs, svc.clientIPAffinity,
                svc.externalIPs, svc.loadBalancerSourceRanges, svc.externalPolicyLocal, svc.internalPolicyLocal,
                svc.hintsAnnotation)
  }

  function PortsUpTo(svc: Service, n: nat): ServicePortMap
    requires n <= |svc.ports|
  {
    if n == 0 then map[]
    else
      var port := svc.ports[n - 1];
      PortsUpTo(svc, n - 1)[ServicePortName(svc.nn, port.name, port.protocol) := BaseServiceInfo(svc, port)]
  }

  /** What `serviceToServiceMap` computes. */
  function ServiceMap(svc: Option<Service>): PortMap {
    if svc.None? || svc.value.skipped || svc.value.clusterIP == "" then NilMap
    else Ports(PortsUpTo(svc.value, |svc.value.ports|))
  }

  method ServiceToServiceMap(svc: Option<Service>) returns (r: PortMap)
    ensures r == ServiceMap(svc)
    ensures r.NilMap? <==> svc.None? || svc.value.skipped || svc.value.clusterIP == ""
    ensures r.Ports? ==> PortsAsExposed(r.m, svc.value)
  {
    hide PortsAsExposed;
    if svc.None? {
      return NilMap;
    }
    if svc.value.skipped {
      return NilMap;
    }
    if svc.value.clusterIP == "" {
      return NilMap;
    }
    var s, m: ServicePortMap := svc.value, map[];
    for i := 0 to |s.ports|
      invariant m == PortsUpTo(s, i)
    {
      m := m[ServicePortName(s.nn, s.ports[i].name, s.ports[i].protocol) := BaseServiceInfo(s, s.ports[i])];
    }
    PortsUpToAsExposed(s);
    return Ports(m);
  }

  // ---- Specification ----

  type Services = map<NamespacedName, Service>

  ghost predicate NamedByKey(services: Services) {
    forall nn :: nn in services ==> services[nn].nn == nn
  }

  function Lookup(services: Services, nn: NamespacedName): Option<Service> {
    if nn in services then Some(services[nn]) else None
  }

  /** The object of this key is now `current`. */
  function Observe(services: Services, nn: NamespacedName, current: Option<Service>): Services {
    if current.Some? then services[nn := current.value] else services - {nn}
  }

  datatype ServiceChange = ServiceChange(previous: PortMap, current: PortMap)

  type Items = map<NamespacedName, ServiceChange>

  /** The ports of a service by name; none if there is no such service. */
  function PortsOf(services: Services, nn: NamespacedName): ServicePortMap {
    ServiceMap(Lookup(services, nn)).Get()
  }

  lemma {:induction false} PortsUpToNamed(svc: Service, n: nat)
    requires n <= |svc.ports|
    ensures forall p :: p in PortsUpTo(svc, n) ==> p.nn == svc.nn && PortsUpTo(svc, n)[p].protocol == p.protocol
    ensures svc.PrintableIPs() ==> forall p :: p in PortsUpTo(svc, n) ==> PortsUpTo(svc, n)[p].PrintableIPs()
  {
    if n > 0 {
      PortsUpToNamed(svc, n - 1);
    }
  }

  /** A service only has ports under its own name, each with the protocol in its key. */
  lemma PortsNamed(services: Services, nn: NamespacedName)
    requires NamedByKey(services)
    ensures forall p :: p in PortsOf(services, nn) ==> p.nn == nn && PortsOf(services, nn)[p].protocol == p.protocol
    ensures nn in services && services[nn].PrintableIPs() ==>
              forall p :: p in PortsOf(services, nn) ==> PortsOf(services, nn)[p].PrintableIPs()
  {
    if nn in services {
      PortsUpToNamed(services[nn], |services[nn].ports|);
    }
  }

  /** Tracked changes lead from the last-synced map to a different latest; untracked services have the two equal. */
  ghost predicate Tracks(items: Items, synced: Services, latest: Services) {
    && (forall nn :: nn in items ==>
          && items[nn] == ServiceChange(ServiceMap(Lookup(synced, nn)), ServiceMap(Lookup(latest, nn)))
          && items[nn].previous != items[nn].current)
    && (forall nn :: nn !in items ==> ServiceMap(Lookup(synced, nn)) == ServiceMap(Lookup(latest, nn)))
  }

  /** The map holds exactly the ports of the services. */
  ghost predicate UnionOf(sm: ServicePortMap, services: Services) {
    && (forall p :: p in sm <==> p in PortsOf(services, p.nn))
    && (forall p :: p in sm ==> sm[p] == PortsOf(services, p.nn)[p])
  }

  /** The union of the services' ports is one map. */
  lemma UnionUnique(a: ServicePortMap, b: ServicePortMap, services: Services)
    requires UnionOf(a, services) && UnionOf(b, services)
    ensures a == b
  {
    hide PortsOf;
    forall p
      ensures p in a <==> p in b
    {
      assert p in a <==> p in PortsOf(services, p.nn);
    }
  }

  // ---- What the map is, said by the fields of the services alone ----

  /**
   Port `k` is the one the service exposes under this name: the last of that name and protocol
   among the first `n`.
   */
  ghost predicate ExposesUpTo(svc: Service, p: ServicePortName, k: int, n: int) {
    && 0 <= k < n <= |svc.ports| && svc.ports[k].name == p.port && svc.ports[k].protocol == p.protocol
    && forall j :: k < j < n ==> !(svc.ports[j].name == p.port && svc.ports[j].protocol == p.protocol)
  }

  /** The service is proxied, and this is its port of that name. */
  ghost predicate Exposes(services: Services, p: ServicePortName, k: int) {
    && p.nn in services && !services[p.nn].skipped && services[p.nn].clusterIP != ""
    && ExposesUpTo(services[p.nn], p, k, |services[p.nn].ports|)
  }

  /** A service port carries the addresses and policies of its service and the numbers of its port. */
  ghost predicate Carries(info: ServicePort, svc: Service, port: PortSpec) {
    && info.clusterIP == svc.clusterIP && info.externalIPs == svc.externalIPs
    && info.loadBalancerVIPs == svc.loadBalancerVIPs && info.loadBalancerSourceRanges == svc.loadBalancerSourceRanges
    && info.internalPolicyLocal == svc.internalPolicyLocal && info.externalPolicyLocal == svc.externalPolicyLocal
    && info.clientIPAffinity == svc.clientIPAffinity && info.hintsAnnotation == svc.hintsAnnotation
    && info.port == port.port && info.nodePort == port.nodePort && info.protocol == port.protocol
  }

  /** The map holds a service port for exactly the exposed ports of the services, each as its service says. */
  ghost predicate MapsServices(sm: ServicePortMap, services: Services) {
    && (forall p :: p in sm <==> exists k :: Exposes(services, p, k))
    && (forall p, k :: p in sm && Exposes(services, p, k) ==> Carries(sm[p], services[p.nn], services[p.nn].ports[k]))
  }

  lemma {:induction false} PortsUpToAre(svc: Service, n: nat, p: ServicePortName)
    requires n <= |svc.ports|
    ensures p in PortsUpTo(svc, n) <==> p.nn == svc.nn && exists k :: ExposesUpTo(svc, p, k, n)
    ensures forall k :: p in PortsUpTo(svc, n) && ExposesUpTo(svc, p, k, n) ==>
              Carries(PortsUpTo(svc, n)[p], svc, svc.ports[k])
  {
    if n > 0 {
      var before := n - 1;
      PortsUpToAre(svc, before, p);
      var last := svc.ports[n - 1];
      if last.name == p.port && last.protocol == p.protocol {
        assert ExposesUpTo(svc, p, n - 1, n);
      } else {
        if k :| ExposesUpTo(svc, p, k, n) {
          assert ExposesUpTo(svc, p, k, n - 1);
        }
        if k :| ExposesUpTo(svc, p, k, before) {
          assert ExposesUpTo(svc, p, k, n);
        }
      }
    }
  }

  /** The ports of one service, each under its name, the last of a name deciding. */
  ghost predicate PortsAsExposed(m: ServicePortMap, svc: Service) {
    && (forall p :: p in m <==> p.nn == svc.nn && exists k :: ExposesUpTo(svc, p, k, |svc.ports|))
    && (forall p, k :: p in m && ExposesUpTo(svc, p, k, |svc.ports|) ==> Carries(m[p], svc, svc.ports[k]))
  }

  lemma PortsUpToAsExposed(svc: Service)
    ensures PortsAsExposed(PortsUpTo(svc, |svc.ports|), svc)
  {
    hide PortsUpTo, Carries;
    forall p
      ensures p in PortsUpTo(svc, |svc.ports|) <==> p.nn == svc.nn && exists k :: ExposesUpTo(svc, p, k, |svc.ports|)
      ensures forall k :: p in PortsUpTo(svc, |svc.ports|) && ExposesUpTo(svc, p, k, |svc.ports|) ==>
                Carries(PortsUpTo(svc, |svc.ports|)[p], svc, svc.ports[k])
    {
      PortsUpToAre(svc, |svc.ports|, p);
    }
  }

  lemma PortsOfAre(services: Services, p: ServicePortName)
    requires NamedByKey(services)
    ensures p in PortsOf(services, p.nn) <==> exists k :: Exposes(services, p, k)
    ensures forall k :: p in PortsOf(services, p.nn) && Exposes(services, p, k) ==>
              Carries(PortsOf(services, p.nn)[p], services[p.nn], services[p.nn].ports[k])
  {
    hide Carries, PortsUpTo;
    if p.nn in services {
      var svc := services[p.nn];
      PortsUpToAre(svc, |svc.ports|, p);
      if k :| Exposes(services, p, k) {
        assert ExposesUpTo(svc, p, k, |svc.ports|);
      }
      if p in PortsOf(services, p.nn) {
        var k :| ExposesUpTo(svc, p, k, |svc.ports|);
        assert Exposes(services, p, k);
      }
    }
  }

  /** The union of the services' ports is what the services say. */
  lemma UnionMapsServices(sm: ServicePortMap, services: Services)
    requires NamedByKey(services) && UnionOf(sm, services)
    ensures MapsServices(sm, services)
  {
    hide PortsOf, Carries;
    forall p
      ensures p in sm <==> exists k :: Exposes(services, p, k)
      ensures forall k :: p in sm && Exposes(services, p, k) ==> Carries(sm[p], services[p.nn], services[p.nn].ports[k])
    {
      PortsOfAre(services, p);
    }
  }

  function ClusterIPsOf(sm: ServicePortMap, gone: set<ServicePortName>): set<string>
  {
    set p | p in gone && p in sm && p.protocol == UDP :: sm[p].clusterIP
  }

  // ---- One change applied to the map ----

  /** `merge`, then `unmerge` of what `filter` leaves of the previous map. */
  function Applied(sm: ServicePortMap, change: ServiceChange): ServicePortMap {
    (sm + change.current.Get()) - (change.previous.Get().Keys - change.current.Get().Keys)
  }

  /** Entries of the services in `done` are up to date, the rest are as last synced. */
  ghost predicate HalfApplied(sm: ServicePortMap, synced: Services, latest: Services, done: set<NamespacedName>) {
    && (forall p: ServicePortName :: p.nn in done ==> (p in sm <==> p in PortsOf(latest, p.nn)))
    && (forall p: ServicePortName :: p.nn in done && p in sm ==> sm[p] == PortsOf(latest, p.nn)[p])
    && (forall p: ServicePortName :: p.nn !in done ==> (p in sm <==> p in PortsOf(synced, p.nn)))
    && (forall p: ServicePortName :: p.nn !in done && p in sm ==> sm[p] == PortsOf(synced, p.nn)[p])
  }

  /** `sm` and `sm'` agree except on ports of `nn`, where `sm'` holds `cur`. */
  ghost predicate ReplacedAt(sm: ServicePortMap, sm': ServicePortMap, nn: NamespacedName, cur: ServicePortMap) {
    && (forall p: ServicePortName :: p.nn != nn ==> (p in sm' <==> p in sm))
    && (forall p: ServicePortName :: p.nn != nn && p in sm ==> sm'[p] == sm[p])
    && (forall p: ServicePortName :: p.nn == nn ==> (p in sm' <==> p in cur))
    && (forall p: ServicePortName :: p.nn == nn && p in cur ==> sm'[p] == cur[p])
  }

  lemma AppliedReplaces(sm: ServicePortMap, change: ServiceChange, nn: NamespacedName)
    requires forall q :: q in change.previous.Get() || q in change.current.Get() ==> q.nn == nn
    requires forall q :: q in sm && q.nn == nn ==> q in change.previous.Get()
    ensures ReplacedAt(sm, Applied(sm, change), nn, change.current.Get())
  {
  }

  lemma ApplyStep(sm: ServicePortMap, synced: Services, latest: Services, done: set<NamespacedName>, nn: NamespacedName,
                  change: ServiceChange)
    requires NamedByKey(synced) && NamedByKey(latest) && nn !in done
    requires change.previous.Get() == PortsOf(synced, nn) && change.current.Get() == PortsOf(latest, nn)
    requires HalfApplied(sm, synced, latest, done)
    ensures HalfApplied(Applied(sm, change), synced, latest, done + {nn})
    ensures forall p :: p in change.previous.Get() || p in change.current.Get() ==> p.nn == nn
    ensures forall p :: p in change.previous.Get() ==> p in sm
  {
    PortsNamed(synced, nn);
    PortsNamed(latest, nn);
    hide PortsOf, PortMap.Get;
    AppliedReplaces(sm, change, nn);
    HalfAppliedStep(sm, Applied(sm, change), synced, latest, done, nn);
  }

  lemma HalfAppliedStep(sm: ServicePortMap, sm': ServicePortMap, synced: Services, latest: Services,
                        done: set<NamespacedName>, nn: NamespacedName)
    requires HalfApplied(sm, synced, latest, done) && ReplacedAt(sm, sm', nn, PortsOf(latest, nn))
    ensures HalfApplied(sm', synced, latest, done + {nn})
  {
    hide PortsOf;
  }

  /** What one event makes of the change records: coalesced with a waiting change, dropped if nothing is left of it. */
  function Recorded(items: Items, nn: NamespacedName, previous: Option<Service>, current: Option<Service>): Items {
    var before := if nn in items then items[nn].previous else ServiceMap(previous);
    if before == ServiceMap(current) then items - {nn} else items[nn := ServiceChange(before, ServiceMap(current))]
  }

  lemma RecordedIs(items: Items, nn: NamespacedName, previous: Option<Service>, current: Option<Service>,
                   change: ServiceChange)
    requires change.previous == if nn in items then items[nn].previous else ServiceMap(previous)
    requires change.current == ServiceMap(current)
    ensures Recorded(items, nn, previous, current) ==
              if change.previous == change.current then items[nn := change] - {nn} else items[nn := change]
  {
    hide ServiceMap;
    assert items[nn := change] - {nn} == items - {nn};
  }

  lemma RecordedAt(items: Items, nn: NamespacedName, previous: Option<Service>, current: Option<Service>)
    ensures var items', before := Recorded(items, nn, previous, current),
              if nn in items then items[nn].previous else ServiceMap(previous);
            && (forall other :: other != nn ==> (other in items' <==> other in items))
            && (forall other :: other != nn && other in items ==> items'[other] == items[other])
            && (nn in items' <==> before != ServiceMap(current))
            && (nn in items' ==> items'[nn] == ServiceChange(before, ServiceMap(current)))
  {
    hide ServiceMap;
  }

  /** The records keep leading from the last-synced maps to the latest. */
  lemma TracksStep(items: Items, synced: Services, latest: Services, nn: NamespacedName, previous: Option<Service>,
                   current: Option<Service>)
    requires Tracks(items, synced, latest) && previous == Lookup(latest, nn)
    ensures Tracks(Recorded(items, nn, previous, current), synced, Observe(latest, nn, current))
  {
    hide ServiceMap, Recorded;
    var latest' := Observe(latest, nn, current);
    assert Lookup(latest', nn) == current;
    assert forall other :: other != nn ==> Lookup(latest', other) == Lookup(latest, other);
    hide Lookup, Observe;
    RecordedAt(items, nn, previous, current);
  }

  /** Unmerging adds exactly the cluster IPs of the newly vanished UDP ports. */
  lemma DeletedStep(sm: ServicePortMap, before: ServicePortMap, cur: ServicePortMap, gone: set<ServicePortName>,
                    nn: NamespacedName, updated: set<NamespacedName>)
    requires nn !in updated && gone !! cur.Keys
    requires forall p :: p in sm ==> sm[p].protocol == p.protocol
    requires forall p :: p in sm && p.nn !in updated ==> p in before && before[p] == sm[p]
    requires forall p :: p in gone ==> p.nn == nn && p in before && p in sm
    requires forall p :: p in cur ==> p.nn == nn
    ensures ClusterIPsOf(sm, sm.Keys - before.Keys)
              + (set p | p in gone && p in before + cur && (before + cur)[p].protocol == UDP ::
                   (before + cur)[p].clusterIP)
            == ClusterIPsOf(sm, sm.Keys - ((before + cur) - gone).Keys)
  {
    assert sm.Keys - ((before + cur) - gone).Keys == (sm.Keys - before.Keys) + gone;
    assert forall p :: p in gone ==> (before + cur)[p] == sm[p];
  }

  lemma AppliedAll(sm: ServicePortMap, sm': ServicePortMap, items: Items, synced: Services, latest: Services,
                   deleted: set<string>)
    requires Tracks(items, synced, latest) && UnionOf(sm, synced)
    requires AppliedSoFar(sm, sm', synced, latest, items.Keys, deleted)
    ensures UnionOf(sm', latest) && Tracks(map[], latest, latest)
    ensures deleted == ClusterIPsOf(sm, sm.Keys - sm'.Keys)
    ensures forall p: ServicePortName :: p.nn !in items ==> (p in sm <==> p in sm') && (p in sm ==> sm[p] == sm'[p])
  {
    hide PortsOf, ServiceMap, ClusterIPsOf;
    UntrackedSame(items, synced, latest);
  }

  lemma UnionProtocols(sm: ServicePortMap, services: Services)
    requires NamedByKey(services) && UnionOf(sm, services)
    ensures forall p :: p in sm ==> sm[p].protocol == p.protocol
  {
    forall p | p in sm
      ensures sm[p].protocol == p.protocol
    {
      PortsNamed(services, p.nn);
    }
  }

  class ServiceChangeTracker {
    var items: Items

    constructor ()
      ensures items == map[]
    {
      items := map[];
    }

    /** Records a change; the result says whether any change is waiting, whoever caused it. */
    method Update(previous: Option<Service>, current: Option<Service>, ghost synced: Services, ghost latest: Services)
      returns (pending: bool)
      requires previous.Some? && current.Some? ==> previous.value.nn == current.value.nn
      requires Tracks(items, synced, latest)
      requires previous.Some? || current.Some? ==>
                 previous == Lookup(latest, (if current.Some? then current.value else previous.value).nn)
      modifies this
      ensures previous.None? && current.None? ==> items == old(items) && !pending
      ensures previous.Some? || current.Some? ==>
                && items == Recorded(old(items), (if current.Some? then current.value else previous.value).nn, previous,
                                     current)
                && Tracks(items, synced, Observe(latest, (if current.Some? then current.value else previous.value).nn,
                                                 current))
                && pending == (|items| > 0)
    {
      hide ServiceMap, Tracks, Observe, Lookup, PortsAsExposed, Recorded;
      if previous.None? && current.None? {
        return false;
      }
      var svc := if current.Some? then current.value else previous.value;
      var nn := svc.nn;
      var change: ServiceChange;
      if nn in items {
        change := items[nn];
      } else {
        var before := ServiceToServiceMap(previous);
        change := ServiceChange(before, NilMap);
      }
      var after := ServiceToServiceMap(current);
      change := change.(current := after);
      items := items[nn := change];
      if change.previous == change.current {
        items := items - {nn};
      }
      RecordedIs(old(items), nn, previous, current, change);
      TracksStep(old(items), synced, latest, nn, previous, current);
      pending := |items| > 0;
    }

    /**
     `ServicePortMap.Update`: bring the map up to date and forget the changes. The reported names are
     exactly those with a waiting change, the reported addresses exactly the cluster IPs of UDP ports
     that the map had and has no more.
     */
    method ApplyTo(sm: ServicePortMap, ghost synced: Services, ghost latest: Services)
      returns (sm': ServicePortMap, updated: set<NamespacedName>, deletedUDPClusterIPs: set<string>)
      requires NamedByKey(synced) && NamedByKey(latest)
      requires Tracks(items, synced, latest) && UnionOf(sm, synced)
      modifies this
      ensures UnionOf(sm', latest) && MapsServices(sm', latest)
      ensures items == map[] && Tracks(items, latest, latest)
      ensures updated == old(items).Keys
      ensures deletedUDPClusterIPs == ClusterIPsOf(sm, sm.Keys - sm'.Keys)
      ensures forall p: ServicePortName :: p.nn !in updated ==> (p in sm <==> p in sm') && (p in sm ==> sm[p] == sm'[p])
    {
      sm', updated, deletedUDPClusterIPs := sm, {}, {};
      var rest := items.Keys;
      hide Tracks, UnionOf, AppliedSoFar, ClusterIPsOf, MapsServices;
      SoFarStart(sm, synced, latest);
      while rest != {}
        invariant rest <= items.Keys && updated == items.Keys - rest && items == old(items)
        invariant AppliedSoFar(sm, sm', synced, latest, updated, deletedUDPClusterIPs)
      {
        var nn :| nn in rest;
        rest := rest - {nn};
        SoFarStep(sm, sm', synced, latest, updated, deletedUDPClusterIPs, nn, items);
        sm', deletedUDPClusterIPs := ApplyChange(sm', items[nn], deletedUDPClusterIPs);
        updated := updated + {nn};
      }
      assert updated == items.Keys;
      AppliedAll(sm, sm', items, synced, latest, deletedUDPClusterIPs);
      UnionMapsServices(sm', latest);
      items := map[];
    }
  }

  /** The loop of `ServicePortMap.Update` after the changes of the services in `done`. */
  ghost predicate AppliedSoFar(sm: ServicePortMap, now: ServicePortMap, synced: Services, latest: Services,
                               done: set<NamespacedName>, deleted: set<string>) {
    && HalfApplied(now, synced, latest, done)
    && (forall p: ServicePortName :: p.nn !in done ==> (p in sm <==> p in now))
    && (forall p :: p in sm && p.nn !in done ==> now[p] == sm[p])
    && (forall p :: p in sm ==> sm[p].protocol == p.protocol)
    && deleted == ClusterIPsOf(sm, sm.Keys - now.Keys)
  }

  lemma SoFarStart(sm: ServicePortMap, synced: Services, latest: Services)
    requires NamedByKey(synced) && UnionOf(sm, synced)
    ensures AppliedSoFar(sm, sm, synced, latest, {}, {})
  {
    UnionProtocols(sm, synced);
    hide PortsOf;
    assert sm.Keys - sm.Keys == {};
  }

  /** A tracked change holds the ports of its service as last synced and as they are now. */
  lemma ChangeLeads(items: Items, synced: Services, latest: Services, nn: NamespacedName)
    requires Tracks(items, synced, latest) && nn in items
    ensures items[nn].previous.Get() == PortsOf(synced, nn) && items[nn].current.Get() == PortsOf(latest, nn)
  {
    hide ServiceMap;
  }

  /** Applying a change of one service leaves the ports of the others. */
  lemma AppliedKeeps(sm: ServicePortMap, change: ServiceChange, nn: NamespacedName)
    requires forall p :: p in change.previous.Get() || p in change.current.Get() ==> p.nn == nn
    ensures forall p: ServicePortName :: p.nn != nn ==> (p in sm <==> p in Applied(sm, change))
    ensures forall p: ServicePortName :: p.nn != nn && p in sm ==> Applied(sm, change)[p] == sm[p]
  {
  }

  lemma UntrackedSame(items: Items, synced: Services, latest: Services)
    requires Tracks(items, synced, latest)
    ensures forall nn :: nn !in items ==> PortsOf(synced, nn) == PortsOf(latest, nn)
  {
    hide ServiceMap;
  }

  lemma SoFarStep(sm: ServicePortMap, now: ServicePortMap, synced: Services, latest: Services,
                  done: set<NamespacedName>, deleted: set<string>,
                  nn: NamespacedName, items: Items)
    requires NamedByKey(synced) && NamedByKey(latest) && Tracks(items, synced, latest)
    requires nn in items && nn !in done && AppliedSoFar(sm, now, synced, latest, done, deleted)
    ensures AppliedSoFar(sm, Applied(now, items[nn]), synced, latest, done + {nn}, deleted + Vanished(now, items[nn]))
  {
    hide HalfApplied, PortsOf, Tracks, NamedByKey, PortMap.Get;
    var change := items[nn];
    ChangeLeads(items, synced, latest, nn);
    ApplyStep(now, synced, latest, done, nn, change);
    AppliedKeeps(now, change, nn);
    DeletedStep(sm, now, change.current.Get(), change.previous.Get().Keys - change.current.Get().Keys, nn, done);
  }

  /** The cluster IPs of the UDP ports that a change removes from the map. */
  function Vanished(sm: ServicePortMap, change: ServiceChange): set<string> {
    var merged := sm + change.current.Get();
    set p | p in change.previous.Get().Keys - change.current.Get().Keys && p in merged && merged[p].protocol == UDP ::
      merged[p].clusterIP
  }

  method ApplyChange(sm: ServicePortMap, change: ServiceChange, deleted: set<string>)
    returns (sm': ServicePortMap, deleted': set<string>)
    ensures sm' == Applied(sm, change)
    ensures deleted' == deleted + Vanished(sm, change)
  {
    sm' := Merge(sm, change.current.Get());
    var previous := Filter(change.previous.Get(), change.current.Get());
    sm', deleted' := Unmerge(sm', previous, deleted);
    assert previous.Keys == change.previous.Get().Keys - change.current.Get().Keys;
  }

  method Merge(sm: ServicePortMap, other: ServicePortMap) returns (r: ServicePortMap)
    ensures r == sm + other
  {
    r := sm;
    var rest := other.Keys;
    while rest != {}
      invariant rest <= other.Keys
      invariant r == sm + (other - rest)
    {
      var p :| p in rest;
      rest := rest - {p};
      r := r[p := other[p]];
    }
    assert other - {} == other;
  }

  method Filter(sm: ServicePortMap, other: ServicePortMap) returns (r: ServicePortMap)
    ensures r == sm - other.Keys
  {
    r := sm;
    var rest := sm.Keys;
    while rest != {}
      invariant rest <= sm.Keys
      invariant r == sm - (other.Keys - rest)
    {
      var p :| p in rest;
      rest := rest - {p};
      if p in other {
        r := r - {p};
      }
    }
  }

  method Unmerge(sm: ServicePortMap, other: ServicePortMap, deleted: set<string>)
    returns (r: ServicePortMap, deleted': set<string>)
    ensures r == sm - other.Keys
    ensures deleted' == deleted + set p | p in other && p in sm && sm[p].protocol == UDP :: sm[p].clusterIP
  {
    r, deleted' := sm, deleted;
    var rest := other.Keys;
    while rest != {}
      invariant rest <= other.Keys
      invariant r == sm - (other.Keys - rest)
      invariant deleted' == deleted
                + set p | p in other.Keys - rest && p in sm && sm[p].protocol == UDP :: sm[p].clusterIP
    {
      var p :| p in rest;
      ghost var seen := other.Keys - rest;
      rest := rest - {p};
      assert other.Keys - rest == seen + {p};
      if p in r {
        if r[p].protocol == UDP {
          deleted' := deleted' + {r[p].clusterIP};
        }
        r := r - {p};
      }
    }
    assert other.Keys - rest == other.Keys;
  }
}
