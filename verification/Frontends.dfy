/** Which service port answers for an address or node port, and what the verdict containers hold for it. */
module Frontends {
  import opened Strings
  import opened ProxyTypes
  import opened Nftables
  import opened RuleCompiler
  import opened ElementStorage
  import opened SyncState

  predicate ExternalAddress(svc: ServicePort, ip: string) {
    ip in svc.externalIPs || ip in svc.loadBalancerVIPs
  }

  /** The address, protocol and port are a cluster IP, external IP or load-balancer frontend of the service port. */
  predicate AddressFrontend(plans: Plans, n: ServicePortName, ip: string, protocol: Protocol, port: nat) {
    && n in plans && plans[n].svc.protocol == protocol && plans[n].svc.port == port
    && (ip == plans[n].svc.clusterIP || ExternalAddress(plans[n].svc, ip))
  }

  predicate NodePortFrontend(plans: Plans, n: ServicePortName, protocol: Protocol, port: nat) {
    n in plans && plans[n].svc.protocol == protocol && plans[n].svc.nodePort == port && port != 0
  }

  /** No two service ports claim the same frontend, and no cluster IP is also an external address. */
  ghost predicate DistinctFrontends(plans: Plans) {
    && (forall n, m, ip, protocol, port ::
          AddressFrontend(plans, n, ip, protocol, port) && AddressFrontend(plans, m, ip, protocol, port) ==> n == m)
    && (forall n, m, protocol, port ::
          NodePortFrontend(plans, n, protocol, port) && NodePortFrontend(plans, m, protocol, port) ==> n == m)
    && (forall n :: n in plans ==> !ExternalAddress(plans[n].svc, plans[n].svc.clusterIP))
  }

  /** What the kernel calls a packet's protocol when it looks the packet up. */
  function KernelProtocol(protocol: Protocol): string {
    if protocol == TCP then "tcp" else if protocol == UDP then "udp" else "sctp"
  }

  /** The key a packet is looked up under is the key the proxier writes. */
  function AddressKey(ip: string, protocol: Protocol, port: nat): (r: Key)
    ensures r == [ip, ProtocolText(protocol), Itoa(port)]
  {
    [ip, KernelProtocol(protocol), Itoa(port)]
  }

  function PortKey(protocol: Protocol, port: nat): (r: Key)
    ensures r == [ProtocolText(protocol), Itoa(port)]
  {
    [KernelProtocol(protocol), Itoa(port)]
  }

  function Held(es: Elements, s: Slot): Option<ElementValue> {
    if s in es then Some(es[s]) else None
  }

  // ---- What one service port declares ----

  ghost predicate Declares(p: Plan, e: Element) {
    || e in p.ClusterIPElements()
    || (exists ip :: ExternalAddress(p.svc, ip) && (e in p.ToExternal(ip) || e in p.NoExternal(ip)))
    || (exists ip :: ip in p.svc.loadBalancerVIPs && e in p.ToFirewall(ip))
    || e in p.NodePortElements()
  }

  lemma {:induction false} ExternalIPElementsAre(p: Plan, n: nat, e: Element)
    requires n <= |p.svc.externalIPs|
    ensures e in p.ExternalIPElements(n) <==>
            exists i ::
              0 <= i < n && (e in p.ToExternal(p.svc.externalIPs[i]) || e in p.NoExternal(p.svc.externalIPs[i]))
  {
    hide RuleCompiler.Plan.ToExternal, RuleCompiler.Plan.NoExternal;
    if n > 0 {
      ExternalIPElementsAre(p, n - 1, e);
    }
  }

  lemma {:induction false} LoadBalancerElementsAre(p: Plan, n: nat, e: Element)
    requires n <= |p.svc.loadBalancerVIPs|
    ensures e in p.LoadBalancerElements(n) <==>
            exists i ::
              0 <= i < n
              && (e in p.ToExternal(p.svc.loadBalancerVIPs[i]) || e in p.ToFirewall(p.svc.loadBalancerVIPs[i]))
    ensures e in p.NoLoadBalancerElements(n) <==> exists i :: 0 <= i < n && e in p.NoExternal(p.svc.loadBalancerVIPs[i])
  {
    hide RuleCompiler.Plan.ToExternal, RuleCompiler.Plan.NoExternal, RuleCompiler.Plan.ToFirewall;
    if n > 0 {
      LoadBalancerElementsAre(p, n - 1, e);
    }
  }

  /** The elements of a service port, whatever order they are written in. */
  lemma ElementsAre(p: Plan, e: Element)
    ensures e in p.Elements() <==> Declares(p, e)
  {
    hide RuleCompiler.Plan.ToExternal, RuleCompiler.Plan.NoExternal, RuleCompiler.Plan.ToFirewall,
      RuleCompiler.Plan.ClusterIPElements, RuleCompiler.Plan.NodePortElements,
      RuleCompiler.Plan.ExternalIPElements, RuleCompiler.Plan.LoadBalancerElements,
      RuleCompiler.Plan.NoLoadBalancerElements;
    ExternalIPElementsAre(p, |p.svc.externalIPs|, e);
    LoadBalancerElementsAre(p, |p.svc.loadBalancerVIPs|, e);
    if ip :| ExternalAddress(p.svc, ip) && (e in p.ToExternal(ip) || e in p.NoExternal(ip)) {
      if ip in p.svc.externalIPs {
        var i :| 0 <= i < |p.svc.externalIPs| && p.svc.externalIPs[i] == ip;
      } else {
        var i :| 0 <= i < |p.svc.loadBalancerVIPs| && p.svc.loadBalancerVIPs[i] == ip;
      }
    }
    if ip :| ip in p.svc.loadBalancerVIPs && e in p.ToFirewall(ip) {
      var i :| 0 <= i < |p.svc.loadBalancerVIPs| && p.svc.loadBalancerVIPs[i] == ip;
    }
  }

  // ---- What it means for a frontend ----

  function ServiceVerdict(p: Plan, ip: string): Option<ElementValue> {
    if ip == p.svc.clusterIP
    then (if p.HasInternal() then Some(GotoChain(p.InternalPolicyChain())) else None)
    else (if p.hasEndpoints then Some(GotoChain(p.ExternalChain())) else None)
  }

  function NoEndpointVerdict(p: Plan, ip: string): Option<ElementValue> {
    if ip == p.svc.clusterIP
    then (if p.HasInternal() then None else Some(p.RefusalValue()))
    else (if p.HasExternal() then None else Some(p.RefusalValue()))
  }

  function FirewallVerdict(p: Plan, ip: string): Option<ElementValue> {
    if ip in p.svc.loadBalancerVIPs && p.UsesFirewallChain() then Some(GotoChain(p.FirewallChain())) else None
  }

  function NodePortVerdict(p: Plan): Option<ElementValue> {
    if p.hasEndpoints then Some(GotoChain(p.ExternalChain())) else None
  }

  function NoEndpointNodePortVerdict(p: Plan): Option<ElementValue> {
    if p.HasExternal() then None else Some(p.RefusalValue())
  }

  /** The value a container should hold at an address key of this service port. */
  function AddressVerdict(c: Container, p: Plan, ip: string): Option<ElementValue> {
    match c
    case ServiceIPs => ServiceVerdict(p, ip)
    case NoEndpointServices => NoEndpointVerdict(p, ip)
    case FirewallIPs => FirewallVerdict(p, ip)
    case _ => None
  }

  function PortVerdict(c: Container, p: Plan): Option<ElementValue> {
    match c
    case ServiceNodePorts => NodePortVerdict(p)
    case NoEndpointNodePorts => NoEndpointNodePortVerdict(p)
    case _ => None
  }

  lemma KeyInjective(a: Protocol, m: nat, b: Protocol, n: nat)
    requires ProtocolText(a) == ProtocolText(b) && Itoa(m) == Itoa(n)
    ensures a == b && m == n
  {
    assert ProtocolText(TCP) != ProtocolText(UDP) by { assert "tcp"[0] != "udp"[0]; }
    assert |ProtocolText(SCTP)| == 4 && |ProtocolText(UDP)| == 3 && |ProtocolText(TCP)| == 3;
    ItoaInjective(m, n);
  }

  /** An element declared at an address key makes that address a frontend, and has the value it should. */
  lemma DeclaredAtAddress(p: Plan, e: Element, ip: string, protocol: Protocol, port: nat)
    requires Declares(p, e) && e.key == AddressKey(ip, protocol, port) && !ExternalAddress(p.svc, p.svc.clusterIP)
    ensures p.svc.protocol == protocol && p.svc.port == port && (ip == p.svc.clusterIP || ExternalAddress(p.svc, ip))
    ensures AddressVerdict(e.container, p, ip) == Some(e.value)
  {
    hide Itoa, ProtocolText;
    assert |e.key| == 3 && e.key[0] == ip && e.key[1] == ProtocolText(protocol) && e.key[2] == Itoa(port);
    assert e.key[1] == ProtocolText(p.svc.protocol) && e.key[2] == Itoa(p.svc.port);
    KeyInjective(p.svc.protocol, p.svc.port, protocol, port);
  }

  lemma DeclaredAtPort(p: Plan, e: Element, protocol: Protocol, port: nat)
    requires Declares(p, e) && e.key == PortKey(protocol, port)
    ensures p.svc.protocol == protocol && p.svc.nodePort == port && port != 0
    ensures PortVerdict(e.container, p) == Some(e.value)
  {
    hide Itoa, ProtocolText;
    assert |e.key| == 2 && e.key[0] == ProtocolText(protocol) && e.key[1] == Itoa(port);
    assert e in p.NodePortElements();
    assert e.key[0] == ProtocolText(p.svc.protocol) && e.key[1] == Itoa(p.svc.nodePort);
    KeyInjective(p.svc.protocol, p.svc.nodePort, protocol, port);
  }

  /** And every value it should hold is declared. */
  lemma AddressDeclared(p: Plan, c: Container, ip: string, v: ElementValue)
    requires ip == p.svc.clusterIP || ExternalAddress(p.svc, ip)
    requires !ExternalAddress(p.svc, p.svc.clusterIP) && AddressVerdict(c, p, ip) == Some(v)
    ensures Declares(p, Element(c, p.AddrKey(ip), v))
  {
    var e := Element(c, p.AddrKey(ip), v);
    if ip == p.svc.clusterIP {
      assert e in p.ClusterIPElements();
    } else if c == FirewallIPs {
      assert e in p.ToFirewall(ip);
    } else {
      assert e in p.ToExternal(ip) || e in p.NoExternal(ip);
    }
  }

  lemma PortDeclared(p: Plan, c: Container, v: ElementValue)
    requires p.svc.nodePort != 0 && PortVerdict(c, p) == Some(v)
    ensures Declares(p, Element(c, p.NodePortKey(), v))
  {
    assert Element(c, p.NodePortKey(), v) in p.NodePortElements();
  }

  // ---- Lookups in an installed state ----

  lemma {:induction false} AllElementsAre(plans: Plans, order: seq<ServicePortName>, e: Element)
    ensures e in AllElements(plans, order) <==> exists n :: n in order && n in plans && e in plans[n].Elements()
  {
    hide RuleCompiler.Plan.Elements;
    if order != [] {
      var init, last := order[..|order| - 1], order[|order| - 1];
      AllElementsAre(plans, init, e);
      assert order == init + [last];
      if last in plans && e in plans[last].Elements() {
        assert last in order;
      }
      if n :| n in init && n in plans && e in plans[n].Elements() {
        assert n in order;
      }
    }
  }

  ghost predicate DeclaredBy(plans: Plans, n: ServicePortName, e: Element) {
    n in plans && Declares(plans[n], e)
  }

  /** A slot that some service port declares, all declarations agreeing on the value. */
  lemma SlotHolds(plans: Plans, order: seq<ServicePortName>, n: ServicePortName, e: Element)
    requires Visits(order, plans) && DeclaredBy(plans, n, e)
    requires forall m, d :: DeclaredBy(plans, m, d) && SlotOf(d) == SlotOf(e) ==> d.value == e.value
    ensures Held(Puts(map[], AllElements(plans, order)), SlotOf(e)) == Some(e.value)
  {
    hide Declares, AllElements, Puts, RuleCompiler.Plan.Elements;
    var es := AllElements(plans, order);
    ElementsAre(plans[n], e);
    AllElementsAre(plans, order, e);
    assert SlotOf(e) in Written(es);
    PutsFrom(map[], es, SlotOf(e));
    var d :| d in es && SlotOf(d) == SlotOf(e) && Puts(map[], es)[SlotOf(e)] == d.value;
    AllElementsAre(plans, order, d);
    var m :| m in order && m in plans && d in plans[m].Elements();
    ElementsAre(plans[m], d);
    assert DeclaredBy(plans, m, d);
  }

  lemma WrittenAreDeclared(plans: Plans, order: seq<ServicePortName>, s: Slot)
    requires s in Written(AllElements(plans, order))
    ensures exists m, d :: DeclaredBy(plans, m, d) && SlotOf(d) == s
  {
    hide Declares, AllElements, Puts, RuleCompiler.Plan.Elements;
    var d :| d in AllElements(plans, order) && SlotOf(d) == s;
    AllElementsAre(plans, order, d);
    var m :| m in order && m in plans && d in plans[m].Elements();
    ElementsAre(plans[m], d);
    assert DeclaredBy(plans, m, d);
  }

  /** A slot that no service port declares. */
  lemma SlotEmpty(plans: Plans, order: seq<ServicePortName>, s: Slot)
    requires forall m, d :: DeclaredBy(plans, m, d) ==> SlotOf(d) != s
    ensures Held(Puts(map[], AllElements(plans, order)), s) == None
  {
    hide DeclaredBy, AllElements, Puts, Written;
    if s in Written(AllElements(plans, order)) {
      WrittenAreDeclared(plans, order, s);
    }
    PutsAt(map[], AllElements(plans, order), s);
  }

  /** At an address, the three address containers hold what its service port should have there, or nothing. */
  lemma AddressLookup(plans: Plans, order: seq<ServicePortName>, c: Container, n: ServicePortName, ip: string,
                      protocol: Protocol, port: nat)
    requires Visits(order, plans) && DistinctFrontends(plans) && AddressFrontend(plans, n, ip, protocol, port)
    ensures Held(Puts(map[], AllElements(plans, order)), Slot(c, AddressKey(ip, protocol, port))) ==
              AddressVerdict(c, plans[n], ip)
  {
    hide Declares, AllElements, Puts, Visits, AddressVerdict, Itoa, ProtocolText;
    var s, want := Slot(c, AddressKey(ip, protocol, port)), AddressVerdict(c, plans[n], ip);
    forall m, d | DeclaredBy(plans, m, d) && SlotOf(d) == s
      ensures want == Some(d.value)
    {
      DeclaredAtAddress(plans[m], d, ip, protocol, port);
      assert AddressFrontend(plans, m, ip, protocol, port);
    }
    if want.Some? {
      AddressDeclared(plans[n], c, ip, want.value);
      var e := Element(c, plans[n].AddrKey(ip), want.value);
      assert DeclaredBy(plans, n, e) && SlotOf(e) == s;
      SlotHolds(plans, order, n, e);
    } else {
      SlotEmpty(plans, order, s);
    }
  }

  lemma DeclaresAddress(plans: Plans, m: ServicePortName, d: Element, ip: string, protocol: Protocol, port: nat)
    requires DistinctFrontends(plans) && DeclaredBy(plans, m, d) && d.key == AddressKey(ip, protocol, port)
    ensures AddressFrontend(plans, m, ip, protocol, port)
  {
    hide Declares, Itoa, ProtocolText;
    DeclaredAtAddress(plans[m], d, ip, protocol, port);
  }

  lemma DeclaresPort(plans: Plans, m: ServicePortName, d: Element, protocol: Protocol, port: nat)
    requires DeclaredBy(plans, m, d) && d.key == PortKey(protocol, port)
    ensures NodePortFrontend(plans, m, protocol, port)
  {
    hide Declares, Itoa, ProtocolText;
    DeclaredAtPort(plans[m], d, protocol, port);
  }

  lemma NoAddressLookup(plans: Plans, order: seq<ServicePortName>, c: Container, ip: string, protocol: Protocol,
                        port: nat)
    requires DistinctFrontends(plans) && forall n :: !AddressFrontend(plans, n, ip, protocol, port)
    ensures Held(Puts(map[], AllElements(plans, order)), Slot(c, AddressKey(ip, protocol, port))) == None
  {
    hide Declares, AllElements, Puts, AddressVerdict, Itoa, ProtocolText;
    var s := Slot(c, AddressKey(ip, protocol, port));
    forall m, d | DeclaredBy(plans, m, d)
      ensures SlotOf(d) != s
    {
      if SlotOf(d) == s {
        DeclaresAddress(plans, m, d, ip, protocol, port);
      }
    }
    SlotEmpty(plans, order, s);
  }

  lemma NodePortLookup(plans: Plans, order: seq<ServicePortName>, c: Container, n: ServicePortName, protocol: Protocol,
                       port: nat)
    requires Visits(order, plans) && DistinctFrontends(plans) && NodePortFrontend(plans, n, protocol, port)
    ensures Held(Puts(map[], AllElements(plans, order)), Slot(c, PortKey(protocol, port))) == PortVerdict(c, plans[n])
  {
    hide Declares, AllElements, Puts, Visits, PortVerdict, Itoa, ProtocolText;
    var s, want := Slot(c, PortKey(protocol, port)), PortVerdict(c, plans[n]);
    forall m, d | DeclaredBy(plans, m, d) && SlotOf(d) == s
      ensures want == Some(d.value)
    {
      DeclaredAtPort(plans[m], d, protocol, port);
      assert NodePortFrontend(plans, m, protocol, port);
    }
    if want.Some? {
      PortDeclared(plans[n], c, want.value);
      var e := Element(c, plans[n].NodePortKey(), want.value);
      assert DeclaredBy(plans, n, e) && SlotOf(e) == s;
      SlotHolds(plans, order, n, e);
    } else {
      SlotEmpty(plans, order, s);
    }
  }

  lemma NoNodePortLookup(plans: Plans, order: seq<ServicePortName>, c: Container, protocol: Protocol, port: nat)
    requires forall n :: !NodePortFrontend(plans, n, protocol, port)
    ensures Held(Puts(map[], AllElements(plans, order)), Slot(c, PortKey(protocol, port))) == None
  {
    hide Declares, AllElements, Puts, PortVerdict, Itoa, ProtocolText;
    var s := Slot(c, PortKey(protocol, port));
    forall m, d | DeclaredBy(plans, m, d)
      ensures SlotOf(d) != s
    {
      if SlotOf(d) == s {
        DeclaresPort(plans, m, d, protocol, port);
      }
    }
    SlotEmpty(plans, order, s);
  }

  /** The cluster-ips set holds exactly the cluster IPs. */
  ghost predicate IsClusterIP(plans: Plans, ip: string) {
    exists n :: n in plans && plans[n].svc.clusterIP == ip
  }

  lemma ClusterIPDeclared(p: Plan, e: Element)
    requires e.container == ClusterIPs
    ensures Declares(p, e) <==> e == Element(ClusterIPs, [p.svc.clusterIP], Member)
  {
    hide Itoa, ProtocolText;
    assert p.ClusterIPElements()[0] == Element(ClusterIPs, [p.svc.clusterIP], Member);
  }

  lemma ClusterIPLookup(plans: Plans, order: seq<ServicePortName>, ip: string)
    requires Visits(order, plans)
    ensures Held(Puts(map[], AllElements(plans, order)), Slot(ClusterIPs, [ip])).Some? <==> IsClusterIP(plans, ip)
  {
    hide Declares, AllElements, Puts, Visits;
    var e := Element(ClusterIPs, [ip], Member);
    forall m, d | DeclaredBy(plans, m, d) && SlotOf(d) == SlotOf(e)
      ensures d.value == e.value && plans[m].svc.clusterIP == ip
    {
      ClusterIPDeclared(plans[m], d);
      assert d.key[0] == ip;
    }
    if IsClusterIP(plans, ip) {
      var n :| n in plans && plans[n].svc.clusterIP == ip;
      ClusterIPDeclared(plans[n], e);
      assert DeclaredBy(plans, n, e);
      SlotHolds(plans, order, n, e);
    } else {
      SlotEmpty(plans, order, SlotOf(e));
    }
  }
}
