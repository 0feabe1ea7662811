/** Cleaning stale conntrack entries after a sync (conntrack/cleanup.go), over a modelled table of flows. */
module Conntrack {
  import opened Strings
  import opened ProxyTypes
  import opened ServiceTracker
  import opened EndpointSlices
  import opened EndpointTracker

  /** A tracked connection: its original destination and where it was translated to. */
  datatype Flow = Flow(protocol: Protocol, origDst: string, dport: nat, dnat: string)

  predicate IPv6(ip: string) { ':' in ip }

  /** The four ways to clear entries. */
  datatype Request =
    | ForIP(ip: string, protocol: Protocol)
    | ForPort(port: nat, ipv6: bool, protocol: Protocol)
    | ForNAT(origin: string, dest: string, protocol: Protocol)
    | ForPortNAT(dest: string, port: nat, protocol: Protocol)

  /** The entries a request deletes, of one IP family. */
  predicate Hits(r: Request, f: Flow) {
    match r
    case ForIP(ip, protocol) => f.origDst == ip && f.protocol == protocol
    case ForPort(port, ipv6, protocol) => f.dport == port && f.protocol == protocol && IPv6(f.origDst) == ipv6
    case ForNAT(origin, dest, protocol) => f.origDst == origin && f.dnat == dest && f.protocol == protocol
    case ForPortNAT(dest, port, protocol) =>
      f.dport == port && f.dnat == dest && f.protocol == protocol && IPv6(f.origDst) == IPv6(dest)
  }

  /** The flows left after some requests. */
  ghost function Cleared(flows: set<Flow>, requests: set<Request>): set<Flow> {
    set f | f in flows && !exists r :: r in requests && Hits(r, f)
  }

  lemma ClearedTwice(flows: set<Flow>, a: set<Request>, b: set<Request>)
    ensures Cleared(Cleared(flows, a), b) == Cleared(flows, a + b)
  {
    hide Hits;
  }

  /** The conntrack tool; requests in `failing` are refused and change nothing. */
  class Table {
    var flows: set<Flow>
    const failing: set<Request>

    constructor (flows: set<Flow>, failing: set<Request>)
      ensures this.flows == flows && this.failing == failing
    {
      this.flows, this.failing := flows, failing;
    }

    method Clear(r: Request)
      modifies this
      ensures flows == Cleared(old(flows), {r} - failing)
    {
      if r !in failing {
        flows := set f | f in flows && !Hits(r, f);
      }
    }
  }

  /**
   What the two map updates of a sync report: vanished UDP cluster IPs, newly active UDP ports,
   deleted UDP endpoints.
   */
  datatype Reports = Reports(deletedIPs: set<string>, active: seq<ServicePortName>, deleted: seq<ServiceEndpoint>)

  /** The reports compare the maps before and after. */
  ghost predicate ReportsHold(sm: ServicePortMap, sm': ServicePortMap, em: EndpointsMap, em': EndpointsMap,
                              r: Reports) {
    r.deletedIPs == ClusterIPsOf(sm, sm.Keys - sm'.Keys) && ReportsExact(em, em', r.deleted, r.active)
  }

  // ---- Host and port ----

  function LastIndex(s: string, c: char): (i: int)
    ensures -1 <= i < |s|
    ensures i >= 0 ==> s[i] == c
    ensures forall j :: i < j < |s| ==> s[j] != c
  {
    if s == [] then -1
    else if s[|s| - 1] == c then |s| - 1
    else LastIndex(s[..|s| - 1], c)
  }

  /** The host part of `net.SplitHostPort`. */
  function SplitHost(s: string): Option<string> {
    var i := LastIndex(s, ':');
    if i < 0 then None
    else if s[0] == '[' then
      if i >= 2 && s[i - 1] == ']' && ']' !in s[1..i - 1] && '[' !in s[1..i - 1] then Some(s[1..i - 1]) else None
    else if ':' in s[..i] || '[' in s[..i] || ']' in s then None
    else Some(s[..i])
  }

  /** `IPPart`; `parse` reads an IP address and prints it in canonical form. */
  function IPPart(parse: string -> Option<string>, s: string): string {
    if parse(s).Some? then s
    else
      var host := SplitHost(s);
      if host.None? then ""
      else
        var ip := parse(host.value);
        if ip.Some? then ip.value else ""
  }

  /** Addresses are canonical, and "address:port" is not itself an address. */
  ghost predicate ReadsBack(parse: string -> Option<string>, ip: string, port: nat) {
    parse(ip) == Some(ip) && parse(JoinHostPort(ip, port)) == None && '[' !in ip && ']' !in ip && ip != ""
  }

  lemma ColonBeforePort(front: string, port: nat)
    ensures LastIndex(front + ":" + Itoa(port), ':') == |front|
  {
    hide Itoa;
    var p := Itoa(port);
    LastIndexIs(front + ":" + p, ':', |front|);
  }

  lemma LastIndexIs(s: string, c: char, i: nat)
    requires i < |s| && s[i] == c && forall j :: i < j < |s| ==> s[j] != c
    ensures LastIndex(s, c) == i
  {
    hide LastIndex;
  }

  /** The address of an endpoint survives printing with its port. */
  lemma IPPartOfEndpoint(parse: string -> Option<string>, ip: string, port: nat)
    requires ReadsBack(parse, ip, port)
    ensures IPPart(parse, JoinHostPort(ip, port)) == ip
  {
    hide Itoa, LastIndex;
    var s, p := JoinHostPort(ip, port), Itoa(port);
    if ':' in ip {
      var front := "[" + ip + "]";
      assert s == front + ":" + p;
      ColonBeforePort(front, port);
      assert s[0] == '[' && s[|front| - 1] == ']' && s[1..|front| - 1] == ip;
    } else {
      assert s == ip + ":" + p;
      ColonBeforePort(ip, port);
      assert s[..|ip|] == ip && s[0] == ip[0];
      assert ']' !in s;
    }
  }

  // ---- The code ----

  function SeqSet(s: seq<string>): set<string> { set x | x in s }

  /** The addresses under which a service port is reached. */
  function Addresses(svc: ServicePort): set<string> {
    {svc.clusterIP} + SeqSet(svc.externalIPs) + SeqSet(svc.loadBalancerVIPs)
  }

  method AddAddresses(svc: ServicePort, ips: set<string>) returns (ips': set<string>)
    ensures ips' == ips + Addresses(svc)
  {
    ips' := ips + {svc.clusterIP};
    for i := 0 to |svc.externalIPs|
      invariant ips' == ips + {svc.clusterIP} + SeqSet(svc.externalIPs[..i])
    {
      assert svc.externalIPs[..i + 1] == svc.externalIPs[..i] + [svc.externalIPs[i]];
      ips' := ips' + {svc.externalIPs[i]};
    }
    assert svc.externalIPs[..|svc.externalIPs|] == svc.externalIPs;
    for i := 0 to |svc.loadBalancerVIPs|
      invariant ips' == ips + {svc.clusterIP} + SeqSet(svc.externalIPs) + SeqSet(svc.loadBalancerVIPs[..i])
    {
      assert svc.loadBalancerVIPs[..i + 1] == svc.loadBalancerVIPs[..i] + [svc.loadBalancerVIPs[i]];
      ips' := ips' + {svc.loadBalancerVIPs[i]};
    }
    assert svc.loadBalancerVIPs[..|svc.loadBalancerVIPs|] == svc.loadBalancerVIPs;
  }

  /** The service addresses and node ports to clear, and the family the last node port is cleared for. */
  datatype Targets = Targets(ips: set<string>, ports: set<nat>, ipv6: bool)

  function AddTarget(sm: ServicePortMap, t: Targets, n: ServicePortName): Targets {
    if n !in sm then t
    else
      var t1 := t.(ips := t.ips + Addresses(sm[n]));
      if sm[n].protocol == UDP && sm[n].nodePort != 0
      then t1.(ports := t1.ports + {sm[n].nodePort}, ipv6 := IPv6(sm[n].clusterIP))
      else t1
  }

  function TargetsOf(sm: ServicePortMap, deletedIPs: set<string>, active: seq<ServicePortName>): Targets {
    if active == []
    then Targets(deletedIPs, {}, false)
    else AddTarget(sm, TargetsOf(sm, deletedIPs, active[..|active| - 1]), active[|active| - 1])
  }

  function ServiceRequests(t: Targets): set<Request> {
    (set ip | ip in t.ips :: ForIP(ip, UDP)) + (set port | port in t.ports :: ForPort(port, t.ipv6, UDP))
  }

  method DeleteStaleServiceEntries(ct: Table, sm: ServicePortMap, deletedIPs: set<string>, active: seq<ServicePortName>)
    modifies ct
    ensures ct.flows == Cleared(old(ct.flows), ServiceRequests(TargetsOf(sm, deletedIPs, active)) - ct.failing)
  {
    var t := Targets(deletedIPs, {}, false);
    for i := 0 to |active|
      invariant t == TargetsOf(sm, deletedIPs, active[..i])
      invariant ct.flows == old(ct.flows)
    {
      assert active[..i + 1][..i] == active[..i];
      var n := active[i];
      if n in sm {
        var ips := AddAddresses(sm[n], t.ips);
        t := t.(ips := ips);
        if sm[n].protocol == UDP && sm[n].nodePort != 0 {
          t := t.(ports := t.ports + {sm[n].nodePort}, ipv6 := IPv6(sm[n].clusterIP));
        }
      }
    }
    assert active[..|active|] == active;
    ghost var flows := ct.flows;
    ClearIPs(ct, t.ips);
    ClearPorts(ct, t.ports, t.ipv6);
    ClearedTwice(flows, (set ip | ip in t.ips :: ForIP(ip, UDP)) - ct.failing,
                 (set port | port in t.ports :: ForPort(port, t.ipv6, UDP)) - ct.failing);
    assert ServiceRequests(t) - ct.failing ==
           ((set ip | ip in t.ips :: ForIP(ip, UDP)) - ct.failing)
           + ((set port | port in t.ports :: ForPort(port, t.ipv6, UDP)) - ct.failing);
  }

  method ClearIPs(ct: Table, ips: set<string>)
    modifies ct
    ensures ct.flows == Cleared(old(ct.flows), (set ip | ip in ips :: ForIP(ip, UDP)) - ct.failing)
  {
    var rest := ips;
    ghost var flows, issued: set<Request> := ct.flows, {};
    while rest != {}
      invariant rest <= ips && issued == set ip | ip in ips - rest :: ForIP(ip, UDP)
      invariant ct.flows == Cleared(flows, issued - ct.failing)
    {
      var ip :| ip in rest;
      ClearedTwice(flows, issued - ct.failing, {ForIP(ip, UDP)} - ct.failing);
      assert (issued - ct.failing) + ({ForIP(ip, UDP)} - ct.failing) == issued + {ForIP(ip, UDP)} - ct.failing;
      ct.Clear(ForIP(ip, UDP));
      rest := rest - {ip};
      issued := issued + {ForIP(ip, UDP)};
    }
    assert ips - rest == ips;
  }

  method ClearPorts(ct: Table, ports: set<nat>, ipv6: bool)
    modifies ct
    ensures ct.flows == Cleared(old(ct.flows), (set port | port in ports :: ForPort(port, ipv6, UDP)) - ct.failing)
  {
    var rest := ports;
    ghost var flows, issued: set<Request> := ct.flows, {};
    while rest != {}
      invariant rest <= ports && issued == set port | port in ports - rest :: ForPort(port, ipv6, UDP)
      invariant ct.flows == Cleared(flows, issued - ct.failing)
    {
      var port :| port in rest;
      ClearedTwice(flows, issued - ct.failing, {ForPort(port, ipv6, UDP)} - ct.failing);
      assert (issued - ct.failing) + ({ForPort(port, ipv6, UDP)} - ct.failing) ==
               issued + {ForPort(port, ipv6, UDP)} - ct.failing;
      ct.Clear(ForPort(port, ipv6, UDP));
      rest := rest - {port};
      issued := issued + {ForPort(port, ipv6, UDP)};
    }
    assert ports - rest == ports;
  }

  /** The requests for one deleted endpoint. */
  function EndpointRequests(parse: string -> Option<string>, sm: ServicePortMap, d: ServiceEndpoint): set<Request> {
    if d.spn !in sm then {}
    else
      var svc, ip := sm[d.spn], IPPart(parse, d.endpoint);
      (if svc.nodePort != 0 then {ForPortNAT(ip, svc.nodePort, UDP)} else {})
      + (set a | a in Addresses(svc) :: ForNAT(a, ip, UDP))
  }

  function AllEndpointRequests(parse: string -> Option<string>, sm: ServicePortMap,
                               deleted: seq<ServiceEndpoint>): set<Request> {
    if deleted == [] then {}
    else AllEndpointRequests(parse, sm, deleted[..|deleted| - 1]) + EndpointRequests(parse, sm, deleted[|deleted| - 1])
  }

  /** Clear the translations of a list of addresses to one endpoint. */
  method ClearNATs(ct: Table, origins: seq<string>, dest: string)
    modifies ct
    ensures ct.flows == Cleared(old(ct.flows), (set a | a in SeqSet(origins) :: ForNAT(a, dest, UDP)) - ct.failing)
  {
    ghost var flows := ct.flows;
    for i := 0 to |origins|
      invariant ct.flows == Cleared(flows, (set a | a in SeqSet(origins[..i]) :: ForNAT(a, dest, UDP)) - ct.failing)
    {
      ghost var issued := set a | a in SeqSet(origins[..i]) :: ForNAT(a, dest, UDP);
      ghost var r := ForNAT(origins[i], dest, UDP);
      assert origins[..i + 1] == origins[..i] + [origins[i]];
      assert SeqSet(origins[..i + 1]) == SeqSet(origins[..i]) + {origins[i]};
      assert (set a | a in SeqSet(origins[..i + 1]) :: ForNAT(a, dest, UDP)) == issued + {r};
      ClearedTwice(flows, issued - ct.failing, {r} - ct.failing);
      assert (issued - ct.failing) + ({r} - ct.failing) == issued + {r} - ct.failing;
      ct.Clear(ForNAT(origins[i], dest, UDP));
    }
    assert origins[..|origins|] == origins;
  }

  method DeleteStaleEndpointEntries(ct: Table, parse: string -> Option<string>, sm: ServicePortMap,
                                    deleted: seq<ServiceEndpoint>)
    modifies ct
    ensures ct.flows == Cleared(old(ct.flows), AllEndpointRequests(parse, sm, deleted) - ct.failing)
  {
    ghost var flows := ct.flows;
    for i := 0 to |deleted|
      invariant ct.flows == Cleared(flows, AllEndpointRequests(parse, sm, deleted[..i]) - ct.failing)
    {
      hide IPPart, Cleared;
      assert deleted[..i + 1][..i] == deleted[..i];
      ghost var a, b := AllEndpointRequests(parse, sm, deleted[..i]), EndpointRequests(parse, sm, deleted[i]);
      ClearedTwice(flows, a - ct.failing, b - ct.failing);
      assert (a - ct.failing) + (b - ct.failing) == a + b - ct.failing;
      DeleteEndpointEntries(ct, parse, sm, deleted[i]);
    }
    assert deleted[..|deleted|] == deleted;
  }

  method DeleteEndpointEntries(ct: Table, parse: string -> Option<string>, sm: ServicePortMap, d: ServiceEndpoint)
    modifies ct
    ensures ct.flows == Cleared(old(ct.flows), EndpointRequests(parse, sm, d) - ct.failing)
  {
    hide IPPart, Hits;
    ghost var flows := ct.flows;
    NothingCleared(flows);
    if d.spn in sm {
      var svc, ip := sm[d.spn], IPPart(parse, d.endpoint);
      if svc.nodePort != 0 {
        ct.Clear(ForPortNAT(ip, svc.nodePort, UDP));
      }
      ghost var r0 := (if svc.nodePort != 0 then {ForPortNAT(ip, svc.nodePort, UDP)} else {}) - ct.failing;
      assert {} - ct.failing == {};
      assert ct.flows == Cleared(flows, r0);
      ct.Clear(ForNAT(svc.clusterIP, ip, UDP));
      ClearNATs(ct, svc.externalIPs, ip);
      ClearNATs(ct, svc.loadBalancerVIPs, ip);
      ghost var r1 := {ForNAT(svc.clusterIP, ip, UDP)} - ct.failing;
      ghost var r2 := (set a | a in SeqSet(svc.externalIPs) :: ForNAT(a, ip, UDP)) - ct.failing;
      ghost var r3 := (set a | a in SeqSet(svc.loadBalancerVIPs) :: ForNAT(a, ip, UDP)) - ct.failing;
      ClearedTwice(flows, r0, r1);
      ClearedTwice(flows, r0 + r1, r2);
      ClearedTwice(flows, r0 + r1 + r2, r3);
      assert EndpointRequests(parse, sm, d) - ct.failing == r0 + r1 + r2 + r3;
    } else {
      assert {} - ct.failing == {};
    }
  }

  lemma NothingCleared(flows: set<Flow>)
    ensures Cleared(flows, {}) == flows
  {
  }

  /** `CleanStaleEntries`: exactly the flows hit by a request that was issued and did not fail are gone. */
  method CleanStaleEntries(ct: Table, parse: string -> Option<string>, sm: ServicePortMap, r: Reports)
    modifies ct
    ensures ct.flows == Cleared(old(ct.flows), Issued(parse, sm, r) - ct.failing)
  {
    hide Cleared, ServiceRequests, TargetsOf, AllEndpointRequests;
    ghost var flows := ct.flows;
    DeleteStaleServiceEntries(ct, sm, r.deletedIPs, r.active);
    DeleteStaleEndpointEntries(ct, parse, sm, r.deleted);
    ghost var a, b := ServiceRequests(TargetsOf(sm, r.deletedIPs, r.active)), AllEndpointRequests(parse, sm, r.deleted);
    ClearedTwice(flows, a - ct.failing, b - ct.failing);
    assert (a - ct.failing) + (b - ct.failing) == a + b - ct.failing;
  }

  function Issued(parse: string -> Option<string>, sm: ServicePortMap, r: Reports): set<Request> {
    ServiceRequests(TargetsOf(sm, r.deletedIPs, r.active)) + AllEndpointRequests(parse, sm, r.deleted)
  }

  // ---- Hygiene ----

  /** The flow came in through a current frontend of the service port. */
  predicate Through(svc: ServicePort, f: Flow) {
    f.protocol == UDP && (f.origDst in Addresses(svc) || (svc.nodePort != 0 && f.dport == svc.nodePort))
  }

  lemma {:induction false} RequestsOf(parse: string -> Option<string>, sm: ServicePortMap,
                                      deleted: seq<ServiceEndpoint>, d: ServiceEndpoint)
    requires d in deleted
    ensures EndpointRequests(parse, sm, d) <= AllEndpointRequests(parse, sm, deleted)
  {
    hide EndpointRequests;
    if d != deleted[|deleted| - 1] {
      RequestsOf(parse, sm, deleted[..|deleted| - 1], d);
    }
  }

  /** After a cleanup without failures no flow from a current frontend to a reported endpoint's address remains. */
  lemma EndpointHygiene(parse: string -> Option<string>, sm: ServicePortMap, r: Reports,
                        flows: set<Flow>, n: ServicePortName, e: Endpoint, f: Flow)
    requires ServiceEndpoint(e.String(), n) in r.deleted && n in sm && ReadsBack(parse, e.ip, e.port)
    requires f in Cleared(flows, Issued(parse, sm, r)) && IPv6(f.origDst) == IPv6(e.ip)
    ensures !(Through(sm[n], f) && f.dnat == e.ip)
  {
    var d := ServiceEndpoint(e.String(), n);
    IPPartOfEndpoint(parse, e.ip, e.port);
    RequestsOf(parse, sm, r.deleted, d);
    hide IPPart, AllEndpointRequests, ServiceRequests, TargetsOf, ReadsBack, Cleared;
    var requests := Issued(parse, sm, r);
    if f.origDst in Addresses(sm[n]) {
      NotHit(flows, requests, ForNAT(f.origDst, e.ip, UDP), f);
    }
    if sm[n].nodePort != 0 {
      NotHit(flows, requests, ForPortNAT(e.ip, sm[n].nodePort, UDP), f);
    }
  }

  lemma NotHit(flows: set<Flow>, requests: set<Request>, r: Request, f: Flow)
    requires f in Cleared(flows, requests) && r in requests
    ensures !Hits(r, f)
  {
    hide Hits;
  }

  /**
   Together with the exact reports of `EndpointsMap.Update`: whenever a UDP endpoint that was
   serving is gone, so are its flows.
   */
  lemma GoneEndpointsHaveNoFlows(parse: string -> Option<string>, sm: ServicePortMap, before: EndpointsMap,
                                 after: EndpointsMap, r: Reports,
                                 flows: set<Flow>, n: ServicePortName, e: Endpoint, f: Flow)
    requires ReportsExact(before, after, r.deleted, r.active)
    requires n.protocol == UDP && e in ListOf(before, n) && e.serving && !HasAddress(ListOf(after, n), e.String())
    requires n in sm && ReadsBack(parse, e.ip, e.port)
    requires f in Cleared(flows, Issued(parse, sm, r)) && IPv6(f.origDst) == IPv6(e.ip)
    ensures !(Through(sm[n], f) && f.dnat == e.ip)
  {
    var d := ServiceEndpoint(e.String(), n);
    assert IsDeleted(before, after, d);
    EndpointHygiene(parse, sm, r, flows, n, e, f);
  }

  lemma {:induction false} ActiveTargets(sm: ServicePortMap, deletedIPs: set<string>, active: seq<ServicePortName>,
                                         n: ServicePortName, ipv6: bool)
    requires forall m :: m in sm ==> IPv6(sm[m].clusterIP) == ipv6
    ensures deletedIPs <= TargetsOf(sm, deletedIPs, active).ips
    ensures n in active && n in sm ==> Addresses(sm[n]) <= TargetsOf(sm, deletedIPs, active).ips
    ensures n in active && n in sm && sm[n].protocol == UDP && sm[n].nodePort != 0 ==>
              sm[n].nodePort in TargetsOf(sm, deletedIPs, active).ports
    ensures TargetsOf(sm, deletedIPs, active).ports != {} ==> TargetsOf(sm, deletedIPs, active).ipv6 == ipv6
  {
    hide Addresses, IPv6;
    if active != [] {
      ActiveTargets(sm, deletedIPs, active[..|active| - 1], n, ipv6);
    }
  }

  /** No black-hole flow to a newly active UDP port, nor any to a deleted UDP cluster IP, is left. */
  lemma ServiceHygiene(parse: string -> Option<string>, sm: ServicePortMap, r: Reports,
                       flows: set<Flow>, n: ServicePortName, ipv6: bool, f: Flow)
    requires forall m :: m in sm ==> IPv6(sm[m].clusterIP) == ipv6
    requires f in Cleared(flows, Issued(parse, sm, r)) && IPv6(f.origDst) == ipv6
    ensures !(f.protocol == UDP && f.origDst in r.deletedIPs)
    ensures n in r.active && n in sm && sm[n].protocol == UDP ==> !Through(sm[n], f)
  {
    ActiveTargets(sm, r.deletedIPs, r.active, n, ipv6);
    hide AllEndpointRequests, TargetsOf, Addresses, IPv6, Cleared;
    var t := TargetsOf(sm, r.deletedIPs, r.active);
    var requests := Issued(parse, sm, r);
    if f.origDst in t.ips {
      NotHit(flows, requests, ForIP(f.origDst, UDP), f);
    }
    if n in sm && sm[n].nodePort in t.ports {
      NotHit(flows, requests, ForPort(sm[n].nodePort, t.ipv6, UDP), f);
    }
  }

  // ---- Exactly the stale flows go ----

  /** The service port is reached under this address. */
  ghost predicate HasFrontend(svc: ServicePort, ip: string) {
    ip == svc.clusterIP || ip in svc.externalIPs || ip in svc.loadBalancerVIPs
  }

  /** The flow is to a frontend of a service port that has just got its first serving endpoints. */
  ghost predicate ToActive(sm: ServicePortMap, active: seq<ServicePortName>, ipv6: bool, f: Flow) {
    exists n :: && n in active && n in sm
                && (|| HasFrontend(sm[n], f.origDst)
                    || (sm[n].protocol == UDP && sm[n].nodePort != 0 && f.dport == sm[n].nodePort
                        && IPv6(f.origDst) == ipv6))
  }

  /** The flow goes from a frontend of a service port to an endpoint that was reported deleted. */
  ghost predicate ToDeleted(parse: string -> Option<string>, sm: ServicePortMap, deleted: seq<ServiceEndpoint>,
                            f: Flow) {
    exists d :: && d in deleted && d.spn in sm && f.dnat == IPPart(parse, d.endpoint)
                && (|| HasFrontend(sm[d.spn], f.origDst)
                    || (sm[d.spn].nodePort != 0 && f.dport == sm[d.spn].nodePort && IPv6(f.origDst) == IPv6(f.dnat)))
  }

  lemma FrontendsAre(svc: ServicePort, ip: string)
    ensures ip in Addresses(svc) <==> HasFrontend(svc, ip)
  {
  }

  lemma {:induction false} TargetsAre(sm: ServicePortMap, deletedIPs: set<string>, active: seq<ServicePortName>,
                                      ip: string, port: nat)
    ensures var t := TargetsOf(sm, deletedIPs, active);
            && (ip in t.ips <==> ip in deletedIPs || exists n :: n in active && n in sm && HasFrontend(sm[n], ip))
            && (port in t.ports <==>
                  port != 0 && exists n :: n in active && n in sm && sm[n].protocol == UDP && sm[n].nodePort == port)
  {
    hide Addresses, HasFrontend, IPv6;
    if active != [] {
      var init, last := active[..|active| - 1], active[|active| - 1];
      TargetsAre(sm, deletedIPs, init, ip, port);
      assert active == init + [last];
      if last in sm {
        FrontendsAre(sm[last], ip);
      }
    }
  }

  lemma {:induction false} EndpointRequestsAre(parse: string -> Option<string>, sm: ServicePortMap,
                                               deleted: seq<ServiceEndpoint>, q: Request)
    ensures q in AllEndpointRequests(parse, sm, deleted) <==>
              exists d :: d in deleted && q in EndpointRequests(parse, sm, d)
  {
    hide EndpointRequests;
    if deleted != [] {
      var init, last := deleted[..|deleted| - 1], deleted[|deleted| - 1];
      EndpointRequestsAre(parse, sm, init, q);
      assert deleted == init + [last];
    }
  }

  lemma ServiceHits(sm: ServicePortMap, deletedIPs: set<string>, active: seq<ServicePortName>, ipv6: bool, f: Flow)
    requires forall m :: m in sm ==> IPv6(sm[m].clusterIP) == ipv6
    ensures (exists q :: q in ServiceRequests(TargetsOf(sm, deletedIPs, active)) && Hits(q, f)) <==>
              f.protocol == UDP && (f.origDst in deletedIPs || ToActive(sm, active, ipv6, f))
  {
    var t := TargetsOf(sm, deletedIPs, active);
    TargetsAre(sm, deletedIPs, active, f.origDst, f.dport);
    ActiveTargets(sm, deletedIPs, active, ServicePortName(NamespacedName("", ""), "", UDP), ipv6);
    hide TargetsOf, IPv6, HasFrontend;
    if f.protocol == UDP && f.origDst in t.ips {
      assert ForIP(f.origDst, UDP) in ServiceRequests(t) && Hits(ForIP(f.origDst, UDP), f);
    }
    if f.protocol == UDP && f.dport in t.ports && IPv6(f.origDst) == ipv6 {
      assert ForPort(f.dport, t.ipv6, UDP) in ServiceRequests(t) && Hits(ForPort(f.dport, t.ipv6, UDP), f);
    }
  }

  lemma EndpointHits(parse: string -> Option<string>, sm: ServicePortMap, d: ServiceEndpoint, f: Flow)
    ensures (exists q :: q in EndpointRequests(parse, sm, d) && Hits(q, f)) <==>
              f.protocol == UDP && ToDeleted(parse, sm, [d], f)
  {
    if d.spn in sm {
      var svc, ip := sm[d.spn], IPPart(parse, d.endpoint);
      FrontendsAre(svc, f.origDst);
      hide Addresses, HasFrontend, IPPart, IPv6;
      if f.protocol == UDP && f.dnat == ip && f.origDst in Addresses(svc) {
        assert ForNAT(f.origDst, ip, UDP) in EndpointRequests(parse, sm, d) && Hits(ForNAT(f.origDst, ip, UDP), f);
      }
      if && f.protocol == UDP && f.dnat == ip && svc.nodePort != 0 && f.dport == svc.nodePort
         && IPv6(f.origDst) == IPv6(ip) {
        assert ForPortNAT(ip, svc.nodePort, UDP) in EndpointRequests(parse, sm, d);
        assert Hits(ForPortNAT(ip, svc.nodePort, UDP), f);
      }
      assert d in [d];
    }
  }

  lemma AllEndpointHits(parse: string -> Option<string>, sm: ServicePortMap, deleted: seq<ServiceEndpoint>, f: Flow)
    ensures (exists q :: q in AllEndpointRequests(parse, sm, deleted) && Hits(q, f)) <==>
              f.protocol == UDP && ToDeleted(parse, sm, deleted, f)
  {
    hide AllEndpointRequests, EndpointRequests, Hits, IPPart, HasFrontend, IPv6;
    if q :| q in AllEndpointRequests(parse, sm, deleted) && Hits(q, f) {
      EndpointRequestsAre(parse, sm, deleted, q);
      var d :| d in deleted && q in EndpointRequests(parse, sm, d);
      EndpointHits(parse, sm, d, f);
    }
    if f.protocol == UDP && ToDeleted(parse, sm, deleted, f) {
      var d :| && d in deleted && d.spn in sm && f.dnat == IPPart(parse, d.endpoint)
               && (|| HasFrontend(sm[d.spn], f.origDst)
                   || (sm[d.spn].nodePort != 0 && f.dport == sm[d.spn].nodePort && IPv6(f.origDst) == IPv6(f.dnat)));
      assert d in [d];
      assert ToDeleted(parse, sm, [d], f);
      EndpointHits(parse, sm, d, f);
      var q :| q in EndpointRequests(parse, sm, d) && Hits(q, f);
      EndpointRequestsAre(parse, sm, deleted, q);
    }
  }

  /**
   A cleanup without failures removes a flow exactly if it is UDP and to a deleted cluster IP, to a
   frontend of a newly active port, or from a frontend of a port to one of its deleted endpoints.
   */
  lemma ClearedIff(parse: string -> Option<string>, sm: ServicePortMap, r: Reports, flows: set<Flow>, ipv6: bool,
                   f: Flow)
    requires (forall m :: m in sm ==> IPv6(sm[m].clusterIP) == ipv6) && f in flows
    ensures f !in Cleared(flows, Issued(parse, sm, r)) <==>
              && f.protocol == UDP
              && (|| f.origDst in r.deletedIPs || ToActive(sm, r.active, ipv6, f)
                  || ToDeleted(parse, sm, r.deleted, f))
  {
    hide AllEndpointRequests, ServiceRequests, TargetsOf, Hits, ToActive, ToDeleted, IPv6;
    ServiceHits(sm, r.deletedIPs, r.active, ipv6, f);
    AllEndpointHits(parse, sm, r.deleted, f);
  }
}
