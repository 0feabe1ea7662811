/** Names of chains and sets, and of service ports (nftables/proxier.go, types.go, wao.go). */
module Names {
  import opened Strings
  import opened ProxyTypes
  import opened Nftables

  const NAME_LENGTH_MAX: nat := 256
  const PREFIX_LENGTH_MAX: nat := 16
  const BASE_LENGTH_MAX: nat := NAME_LENGTH_MAX - PREFIX_LENGTH_MAX

  /** Eight characters of the encoded SHA-256 of a string. */
  type Hash = h: string -> string | forall s :: |h(s)| == 8 witness (s => "AAAAAAAA")

  function HashAndTruncate(hash: Hash, name: string): string {
    var n := hash(name) + "-" + name;
    if |n| > BASE_LENGTH_MAX then n[..BASE_LENGTH_MAX - 3] + "..." else n
  }

  predicate Truncated(name: string) {
    |name| + 9 > BASE_LENGTH_MAX
  }

  function ServiceBase(n: ServicePortName): string {
    n.nn.ns + "/" + n.nn.name + "/" + ProtocolText(n.protocol) + "/" + n.port
  }

  function Dotted(ip: string): (r: string)
    ensures |r| == |ip| && forall i :: 0 <= i < |ip| ==> r[i] == if ip[i] == ':' then '.' else ip[i]
  {
    seq(|ip|, i requires 0 <= i < |ip| => if ip[i] == ':' then '.' else ip[i])
  }

  function EndpointBase(n: ServicePortName, ip: string, port: nat): string {
    ServiceBase(n) + "__" + Dotted(ip) + "/" + Itoa(port)
  }

  function StockName(s: StockChain): string {
    match s
    case FilterPrerouting => "filter-prerouting"
    case FilterInput => "filter-input"
    case FilterForward => "filter-forward"
    case FilterOutput => "filter-output"
    case FilterOutputPostDNAT => "filter-output-post-dnat"
    case NatPrerouting => "nat-prerouting"
    case NatOutput => "nat-output"
    case NatPostrouting => "nat-postrouting"
    case Services => "services"
    case ServiceEndpointsCheck => "service-endpoints-check"
    case NodePortEndpointsCheck => "nodeport-endpoints-check"
    case RejectChain => "reject-chain"
    case ClusterIPsCheck => "cluster-ips-check"
    case FirewallCheck => "firewall-check"
    case MarkMasq => "mark-for-masquerade"
    case Masquerading => "masquerading"
  }

  function Prefix(c: Chain): string
    requires !c.Stock?
  {
    match c
    case ServiceChain(ClusterPolicy, _) => "service-"
    case ServiceChain(LocalPolicy, _) => "local-"
    case ServiceChain(External, _) => "external-"
    case ServiceChain(Firewall, _) => "firewall-"
    case EndpointChain(_, _, _) => "endpoint-"
  }

  function Base(c: Chain): string
    requires !c.Stock?
  {
    match c
    case ServiceChain(_, n) => ServiceBase(n)
    case EndpointChain(n, ip, port) => EndpointBase(n, ip, port)
  }

  function ChainName(hash: Hash, c: Chain): string {
    if c.Stock? then StockName(c.stock) else Prefix(c) + HashAndTruncate(hash, Base(c))
  }

  function SetNameText(hash: Hash, s: SetName): string {
    match s
    case NodePortIPs => "nodeport-ips"
    case AffinitySet(n, ip, port) => "affinity-" + HashAndTruncate(hash, EndpointBase(n, ip, port))
  }

  predicate IsServiceChainName(name: string) { '/' in name }

  predicate IsAffinitySetName(name: string) { "affinity-" <= name }

  // ---- Legal names ----

  predicate Free(s: string, c: char) { c !in s }

  /** A Kubernetes name: at most 63 characters, none of them a separator. */
  predicate Legal(s: string) {
    |s| <= 63 && Free(s, '/') && Free(s, '_') && Free(s, ':') && Free(s, '.')
  }

  predicate LegalName(n: ServicePortName) {
    Legal(n.nn.ns) && Legal(n.nn.name) && Legal(n.port)
  }

  /** An address of the given family as Go prints it. */
  predicate LegalIP(ip: string, ipv6: bool) {
    Free(ip, '/') && Free(ip, '_') && (if ipv6 then Free(ip, '.') else Free(ip, ':'))
  }

  predicate LegalChain(c: Chain, ipv6: bool) {
    !c.Stock? && LegalName(c.spn) && (c.EndpointChain? ==> LegalIP(c.ip, ipv6))
  }

  // ---- Cutting at a separator ----

  /** The first separator is where it was put. */
  lemma Cut(a: string, x: string, b: string, y: string, c: char)
    requires Free(a, c) && Free(b, c) && a + [c] + x == b + [c] + y
    ensures a == b && x == y
  {
    var s, t := a + [c] + x, b + [c] + y;
    assert s[|a|] == c && t[|b|] == c;
    assert |a| == |b|;
    assert a == s[..|a|] && b == t[..|b|];
    assert x == s[|a| + 1..] && y == t[|b| + 1..];
  }

  lemma ProtocolTextInjective(a: Protocol, b: Protocol)
    requires ProtocolText(a) == ProtocolText(b)
    ensures a == b
  {
    assert ProtocolText(TCP)[0] == 't' && ProtocolText(UDP)[0] == 'u' && ProtocolText(SCTP)[0] == 's';
  }

  /** The service part, followed by anything, determines the service port up to where its port name ends. */
  lemma CutService(m: ServicePortName, x: string, n: ServicePortName, y: string)
    requires LegalName(m) && LegalName(n) && ServiceBase(m) + x == ServiceBase(n) + y
    ensures m.nn == n.nn && m.protocol == n.protocol && m.port + x == n.port + y
  {
    hide Legal, ProtocolText;
    var pm, pn := ProtocolText(m.protocol), ProtocolText(n.protocol);
    ProtocolFree(m.protocol);
    ProtocolFree(n.protocol);
    LegalFree(m.nn.ns);
    LegalFree(n.nn.ns);
    LegalFree(m.nn.name);
    LegalFree(n.nn.name);
    var m3, n3 := m.port + x, n.port + y;
    var m2, n2 := pm + "/" + m3, pn + "/" + n3;
    var m1, n1 := m.nn.name + "/" + m2, n.nn.name + "/" + n2;
    assert ServiceBase(m) + x == m.nn.ns + "/" + m1 && ServiceBase(n) + y == n.nn.ns + "/" + n1;
    Cut(m.nn.ns, m1, n.nn.ns, n1, '/');
    Cut(m.nn.name, m2, n.nn.name, n2, '/');
    Cut(pm, m3, pn, n3, '/');
    ProtocolTextInjective(m.protocol, n.protocol);
  }

  lemma ProtocolFree(p: Protocol)
    ensures Free(ProtocolText(p), '/') && 3 <= |ProtocolText(p)| <= 4
  {
  }

  lemma LegalFree(s: string)
    requires Legal(s)
    ensures Free(s, '/') && Free(s, '_') && Free(s, ':') && |s| <= 63
  {
  }

  lemma ServiceBaseInjective(m: ServicePortName, n: ServicePortName)
    requires LegalName(m) && LegalName(n) && ServiceBase(m) == ServiceBase(n)
    ensures m == n
  {
    hide ServiceBase, LegalName;
    assert ServiceBase(m) + "" == ServiceBase(m) && ServiceBase(n) + "" == ServiceBase(n);
    CutService(m, "", n, "");
    assert m.port + "" == m.port && n.port + "" == n.port;
  }

  /** Within one IP family replacing colons by dots loses nothing. */
  lemma DottedInjective(a: string, b: string, ipv6: bool)
    requires LegalIP(a, ipv6) && LegalIP(b, ipv6) && Dotted(a) == Dotted(b)
    ensures a == b
  {
    hide Dotted;
    forall i | 0 <= i < |a|
      ensures a[i] == b[i]
    {
      assert Dotted(a)[i] == Dotted(b)[i];
      assert a[i] in a && b[i] in b;
    }
  }

  lemma EndpointBaseInjective(m: ServicePortName, a: string, p: nat, n: ServicePortName, b: string, q: nat, ipv6: bool)
    requires LegalName(m) && LegalName(n) && LegalIP(a, ipv6) && LegalIP(b, ipv6)
    requires EndpointBase(m, a, p) == EndpointBase(n, b, q)
    ensures m == n && a == b && p == q
  {
    hide ServiceBase, Legal, Itoa, Dotted, LegalIP;
    var x, y := Dotted(a) + "/" + Itoa(p), Dotted(b) + "/" + Itoa(q);
    assert EndpointBase(m, a, p) == ServiceBase(m) + ("__" + x) && EndpointBase(n, b, q) == ServiceBase(n) + ("__" + y);
    CutService(m, "__" + x, n, "__" + y);
    LegalFree(m.port);
    LegalFree(n.port);
    assert m.port + ("__" + x) == m.port + "_" + ("_" + x) && n.port + ("__" + y) == n.port + "_" + ("_" + y);
    Cut(m.port, "_" + x, n.port, "_" + y, '_');
    assert x == ("_" + x)[1..] && y == ("_" + y)[1..];
    DottedFree(a, ipv6);
    DottedFree(b, ipv6);
    Cut(Dotted(a), Itoa(p), Dotted(b), Itoa(q), '/');
    DottedInjective(a, b, ipv6);
    ItoaInjective(p, q);
  }

  lemma DottedFree(a: string, ipv6: bool)
    requires LegalIP(a, ipv6)
    ensures Free(Dotted(a), '/')
  {
    hide Dotted;
    forall i | 0 <= i < |a|
      ensures Dotted(a)[i] != '/'
    {
      assert a[i] in a;
    }
  }

  // ---- Chain names ----

  /** A service chain name is never truncated. */
  lemma ServiceNeverTruncated(n: ServicePortName)
    requires LegalName(n)
    ensures !Truncated(ServiceBase(n)) && |ServiceBase(n)| <= 196
  {
    hide ProtocolText;
    ProtocolFree(n.protocol);
  }

  /** Every name fits. */
  lemma NamesFit(hash: Hash, c: Chain, s: SetName)
    ensures |ChainName(hash, c)| <= NAME_LENGTH_MAX
    ensures |SetNameText(hash, s)| <= NAME_LENGTH_MAX
  {
    hide ServiceBase, EndpointBase;
    assert !c.Stock? ==> |Prefix(c)| <= 9;
  }

  /** Service chains are recognised by their names, truncated or not; stock chains never are. */
  lemma Recognised(hash: Hash, c: Chain, ipv6: bool)
    requires c.Stock? || LegalChain(c, ipv6)
    ensures IsServiceChainName(ChainName(hash, c)) <==> !c.Stock?
  {
    if !c.Stock? {
      SlashKept(hash, Prefix(c), c, ipv6);
    } else {
      StockFree(c.stock);
    }
  }

  lemma BaseFree(s: StockChain)
    requires IsBase(s)
    ensures '/' !in StockName(s)
  {
  }

  lemma JumpedToFree(s: StockChain)
    requires !IsBase(s)
    ensures '/' !in StockName(s)
  {
  }

  lemma StockFree(s: StockChain)
    ensures '/' !in StockName(s)
  {
    hide StockName;
    if IsBase(s) {
      BaseFree(s);
    } else {
      JumpedToFree(s);
    }
  }

  lemma SlashKept(hash: Hash, prefix: string, c: Chain, ipv6: bool)
    requires LegalChain(c, ipv6)
    ensures '/' in prefix + HashAndTruncate(hash, Base(c))
  {
    hide ProtocolText, Itoa, Dotted;
    var base, at := Base(c), |c.spn.nn.ns|;
    assert base[at] == '/';
    var n := hash(base) + "-" + base;
    assert n[9 + at] == '/';
    var name := HashAndTruncate(hash, base);
    assert name[9 + at] == '/';
    assert (prefix + name)[|prefix| + 9 + at] == '/';
  }

  /** Affinity sets are recognised by their names, the node-port set is not. */
  lemma AffinityRecognised(hash: Hash, s: SetName)
    ensures IsAffinitySetName(SetNameText(hash, s)) <==> s.AffinitySet?
  {
    if s.AffinitySet? {
      assert SetNameText(hash, s)[..9] == "affinity-";
    } else {
      assert "nodeport-ips"[0] != "affinity-"[0];
    }
  }

  /** Untruncated names keep everything. */
  lemma UntruncatedKeeps(hash: Hash, a: string, b: string)
    requires !Truncated(a) && !Truncated(b) && HashAndTruncate(hash, a) == HashAndTruncate(hash, b)
    ensures a == b
  {
    assert a == HashAndTruncate(hash, a)[9..] && b == HashAndTruncate(hash, b)[9..];
  }

  /** The first two letters of a prefix tell the kind of chain. */
  lemma HeadsTell(a: Chain, b: Chain)
    requires !a.Stock? && !b.Stock?
    ensures |Prefix(a)| >= 2 && |Prefix(b)| >= 2
    ensures Prefix(a)[0] == Prefix(b)[0] && Prefix(a)[1] == Prefix(b)[1] ==>
              Prefix(a) == Prefix(b) && (a.EndpointChain? <==> b.EndpointChain?)
              && (a.ServiceChain? && b.ServiceChain? ==> a.kind == b.kind)
  {
  }

  lemma PrefixesTell(a: Chain, x: string, b: Chain, y: string)
    requires !a.Stock? && !b.Stock? && Prefix(a) + x == Prefix(b) + y
    ensures Prefix(a) == Prefix(b) && x == y
    ensures a.EndpointChain? <==> b.EndpointChain?
    ensures a.ServiceChain? && b.ServiceChain? ==> a.kind == b.kind
  {
    HeadsTell(a, b);
    hide Prefix;
    var s, t := Prefix(a) + x, Prefix(b) + y;
    assert s[0] == Prefix(a)[0] && t[0] == Prefix(b)[0] && s[1] == Prefix(a)[1] && t[1] == Prefix(b)[1];
    assert Prefix(a) == Prefix(b);
    assert x == s[|Prefix(a)|..] && y == t[|Prefix(b)|..];
  }

  /** Distinct service ports and endpoints of one IP family have distinct untruncated chain names. */
  lemma NamesIdentify(hash: Hash, a: Chain, b: Chain, ipv6: bool)
    requires LegalChain(a, ipv6) && LegalChain(b, ipv6)
    requires !Truncated(Base(a)) && !Truncated(Base(b))
    requires ChainName(hash, a) == ChainName(hash, b)
    ensures a == b
  {
    hide HashAndTruncate, ServiceBase, EndpointBase, LegalName, LegalIP;
    PrefixesTell(a, HashAndTruncate(hash, Base(a)), b, HashAndTruncate(hash, Base(b)));
    UntruncatedKeeps(hash, Base(a), Base(b));
    if a.ServiceChain? {
      ServiceBaseInjective(a.spn, b.spn);
    } else {
      EndpointBaseInjective(a.spn, a.ip, a.port, b.spn, b.ip, b.port, ipv6);
    }
  }

  /** An untruncated name does not look truncated: it ends in a digit or a port name, never in dots. */
  lemma EndsDiffer(hash: Hash, a: Chain, b: Chain, ipv6: bool)
    requires LegalChain(a, ipv6) && LegalChain(b, ipv6) && Truncated(Base(a)) && !Truncated(Base(b))
    ensures HashAndTruncate(hash, Base(a)) != HashAndTruncate(hash, Base(b))
  {
    hide ServiceBase, ProtocolText, Itoa, Dotted;
    if a.ServiceChain? {
      ServiceNeverTruncated(a.spn);
    }
    var s, t := HashAndTruncate(hash, Base(a)), HashAndTruncate(hash, Base(b));
    if |s| == |t| {
      assert s[|s| - 1] == '.';
      if b.ServiceChain? {
        ServiceNeverTruncated(b.spn);
      } else {
        assert t[|t| - 1] == Itoa(b.port)[|Itoa(b.port)| - 1];
      }
    }
  }

  /** Any two different chains with the same name are truncated endpoint chains whose hashes collide. */
  lemma OnlyHashCollisions(hash: Hash, a: Chain, b: Chain, ipv6: bool)
    requires LegalChain(a, ipv6) && LegalChain(b, ipv6) && a != b && ChainName(hash, a) == ChainName(hash, b)
    ensures a.EndpointChain? && b.EndpointChain? && Truncated(Base(a)) && Truncated(Base(b))
    ensures hash(Base(a)) == hash(Base(b))
  {
    var x, y := HashAndTruncate(hash, Base(a)), HashAndTruncate(hash, Base(b));
    hide ServiceBase, EndpointBase, LegalName, LegalIP, Itoa;
    PrefixesTell(a, x, b, y);
    if !Truncated(Base(a)) && !Truncated(Base(b)) {
      NamesIdentify(hash, a, b, ipv6);
    } else if !Truncated(Base(b)) {
      EndsDiffer(hash, a, b, ipv6);
    } else if !Truncated(Base(a)) {
      EndsDiffer(hash, b, a, ipv6);
    } else {
      assert x[..8] == hash(Base(a)) && y[..8] == hash(Base(b));
      TruncatedIsEndpoint(a, ipv6);
    }
  }

  lemma TruncatedIsEndpoint(c: Chain, ipv6: bool)
    requires LegalChain(c, ipv6)
    ensures Truncated(Base(c)) ==> c.EndpointChain?
  {
    hide ServiceBase;
    if c.ServiceChain? {
      ServiceNeverTruncated(c.spn);
    }
  }

  // ---- Printed service port names ----

  /** The parts of a string between separators. */
  function Parts(s: string, c: char): (r: seq<string>)
    ensures |r| > 0
  {
    if s == [] then [[]]
    else
      var rest := Parts(s[1..], c);
      if s[0] == c then [[]] + rest else [[s[0]] + rest[0]] + rest[1..]
  }

  lemma {:induction false} PartsOfFree(s: string, c: char)
    requires Free(s, c)
    ensures Parts(s, c) == [s]
  {
    if s != [] {
      assert forall x :: x in s[1..] ==> x in s;
      PartsOfFree(s[1..], c);
      assert [s[0]] + s[1..] == s;
    }
  }

  lemma {:induction false} PartsOfTwo(a: string, b: string, c: char)
    requires Free(a, c) && Free(b, c)
    ensures Parts(a + [c] + b, c) == [a, b]
  {
    var s := a + [c] + b;
    if a == [] {
      assert s[1..] == b;
      PartsOfFree(b, c);
    } else {
      assert s[1..] == a[1..] + [c] + b;
      assert forall x :: x in a[1..] ==> x in a;
      PartsOfTwo(a[1..], b, c);
      assert [s[0]] + a[1..] == a;
    }
  }

  /** `decodeSvcPortNameString`: namespace, service name and port name. */
  function DecodeName(s: string): (string, string, string) {
    var v := Parts(s, '/');
    if |v| != 2 then ("", "", "")
    else
      var vv := Parts(v[1], ':');
      (v[0], vv[0], if |vv| == 2 then vv[1] else "")
  }

  /** Decoding a printed name gives back its parts. */
  lemma DecodePrinted(n: ServicePortName)
    requires LegalName(n)
    ensures DecodeName(NameString(n)) == (n.nn.ns, n.nn.name, n.port)
  {
    var tail := n.nn.name + (if n.port == "" then "" else ":" + n.port);
    assert NameString(n) == n.nn.ns + ['/'] + tail;
    PartsOfTwo(n.nn.ns, tail, '/');
    if n.port == "" {
      assert tail == n.nn.name;
      PartsOfFree(tail, ':');
    } else {
      assert tail == n.nn.name + [':'] + n.port;
      PartsOfTwo(n.nn.name, n.port, ':');
    }
  }

  /** The protocol is not printed: two ports that differ only in it share their scores. */
  lemma PrintedWithoutProtocol(m: ServicePortName, n: ServicePortName)
    requires LegalName(m) && LegalName(n)
    ensures NameString(m) == NameString(n) <==> m.nn == n.nn && m.port == n.port
  {
    DecodePrinted(m);
    DecodePrinted(n);
  }
}
