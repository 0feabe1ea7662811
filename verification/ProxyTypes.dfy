/** The objects kube-proxy reasons about: service ports, endpoints and their names. */
module ProxyTypes {
  import opened Strings

  datatype Option<+T> = None | Some(value: T)

  datatype Protocol = TCP | UDP | SCTP

  /** `strings.ToLower(string(protocol))`. */
  function ProtocolText(p: Protocol): string {
    match p
    case TCP => "tcp"
    case UDP => "udp"
    case SCTP => "sctp"
  }

  datatype NamespacedName = NamespacedName(ns: string, name: string)

  datatype ServicePortName = ServicePortName(nn: NamespacedName, port: string, protocol: Protocol)

  /** `ServicePortName.String`: the key scores are kept under. The protocol is not part of it. */
  function NameString(n: ServicePortName): string {
    n.nn.ns + "/" + n.nn.name + (if n.port == "" then "" else ":" + n.port)
  }

  /** `net.JoinHostPort`. */
  function JoinHostPort(ip: string, port: nat): string {
    if ':' in ip then "[" + ip + "]:" + Itoa(port) else ip + ":" + Itoa(port)
  }

  lemma SplitLastColon(a: string, p: nat, b: string, q: nat)
    requires a + ":" + Itoa(p) == b + ":" + Itoa(q)
    ensures a == b && p == q
  {
    hide Itoa;
    var s, t, x, y := a + ":" + Itoa(p), b + ":" + Itoa(q), Itoa(p), Itoa(q);
    assert s[|a|] == ':' && t[|b|] == ':';
    assert forall i :: |a| < i < |s| ==> s[i] == x[i - |a| - 1];
    assert forall i :: |b| < i < |t| ==> t[i] == y[i - |b| - 1];
    assert |a| == |b|;
    assert a == s[..|a|] && b == t[..|b|] && x == s[|a| + 1..] && y == t[|b| + 1..];
    ItoaInjective(p, q);
  }

  /** A printed address and port determine both. */
  lemma JoinHostPortInjective(a: string, p: nat, b: string, q: nat)
    requires JoinHostPort(a, p) == JoinHostPort(b, q)
    ensures a == b && p == q
  {
    hide Itoa;
    var x, y := if ':' in a then "[" + a + "]" else a, if ':' in b then "[" + b + "]" else b;
    assert JoinHostPort(a, p) == x + ":" + Itoa(p) && JoinHostPort(b, q) == y + ":" + Itoa(q);
    SplitLastColon(x, p, y, q);
    if ':' in a {
      assert a == x[1..|x| - 1] && ':' in x;
    }
    if ':' in b {
      assert b == y[1..|y| - 1] && ':' in y;
    }
  }

  datatype Endpoint = Endpoint(
    ip: string,
    port: nat,
    isLocal: bool,
    ready: bool,
    serving: bool,
    terminating: bool,
    zoneHints: set<string>)
  {
    function String(): string {
      JoinHostPort(ip, port)
    }

    /** Usable somewhere in the cluster: ready, or still serving while it terminates. */
    predicate Usable() {
      ready || (serving && terminating)
    }
  }

  /** No two entries of the list share an address. */
  ghost predicate UniqueAddresses(eps: seq<Endpoint>) {
    forall i, j :: 0 <= i < j < |eps| ==> eps[i].String() != eps[j].String()
  }

  /** A CIDR, with the finite set of addresses it contains. */
  datatype Cidr = Cidr(text: string, members: set<string>)

  datatype ServicePort = ServicePort(
    clusterIP: string,
    port: nat,
    protocol: Protocol,
    nodePort: nat,
    loadBalancerVIPs: seq<string>,
    clientIPAffinity: bool,
    externalIPs: seq<string>,
    loadBalancerSourceRanges: seq<Cidr>,
    externalPolicyLocal: bool,
    internalPolicyLocal: bool,
    hintsAnnotation: string)
  {
    predicate ExternallyAccessible() {
      nodePort != 0 || |loadBalancerVIPs| != 0 || |externalIPs| != 0
    }

    predicate UsesClusterEndpoints() {
      !internalPolicyLocal || ExternallyAccessible()
    }

    predicate UsesLocalEndpoints() {
      internalPolicyLocal || (externalPolicyLocal && ExternallyAccessible())
    }

    /** Addresses are printed `net.IP` values, which never contain a space. */
    predicate PrintableIPs() {
      && SpaceFree(clusterIP)
      && (forall i :: 0 <= i < |externalIPs| ==> SpaceFree(externalIPs[i]))
      && (forall i :: 0 <= i < |loadBalancerVIPs| ==> SpaceFree(loadBalancerVIPs[i]))
    }
  }
}
