/**
 The kernel side: one nftables table as chains of rules, verdict containers and sets, and the
 operations a transaction is made of. An operation the kernel would refuse has no result.
 */
module Nftables {
  import opened ProxyTypes

  datatype StockChain =
    | FilterPrerouting | FilterInput | FilterForward | FilterOutput | FilterOutputPostDNAT
    | NatPrerouting | NatOutput | NatPostrouting
    | Services | ServiceEndpointsCheck | NodePortEndpointsCheck | RejectChain
    | ClusterIPsCheck | FirewallCheck | MarkMasq | Masquerading

  /** The chains hooked into the kernel directly; no rule jumps to one. */
  predicate IsBase(s: StockChain) {
    match s
    case FilterPrerouting | FilterInput | FilterForward | FilterOutput | FilterOutputPostDNAT => true
    case NatPrerouting | NatOutput | NatPostrouting => true
    case _ => false
  }

  datatype ServiceChainKind = ClusterPolicy | LocalPolicy | External | Firewall

  /** Chains are identified by what their names are printed from; module Names shows the printing injective. */
  datatype Chain =
    | Stock(stock: StockChain)
    | ServiceChain(kind: ServiceChainKind, spn: ServicePortName)
    | EndpointChain(spn: ServicePortName, ip: string, port: nat)

  datatype SetName =
    | NodePortIPs
    | AffinitySet(spn: ServicePortName, ip: string, port: nat)

  /** The verdict maps, and the `cluster-ips` set, whose elements carry no verdict. */
  datatype Container =
    | ClusterIPs | ServiceIPs | FirewallIPs | NoEndpointServices | NoEndpointNodePorts | ServiceNodePorts

  datatype ElementValue = Member | GotoChain(chain: Chain) | DropPacket

  datatype Match =
    | CtStateNew
    | DaddrIs(ip: string)
    | DportIs(protocol: Protocol, port: nat)
    | L4ProtocolIs(protocol: Protocol)
    | SaddrIs(ip: string)
    | SaddrNotIn(ranges: seq<Cidr>, ips: seq<string>)
    | SaddrInSet(affinity: SetName)
    | FromLocalPod
    | NotFromLocalPod
    | SaddrTypeLocal
    | DaddrTypeLocal
    | DaddrNotLocalhost
    | DaddrInNodePortIPs
    | DaddrInClusterIPs
    | DaddrInRanges(ranges: seq<Cidr>)
    | MarkIsClear

  /** One `lo-hi : goto target` element of an anonymous verdict map. */
  datatype Arm = Arm(lo: int, hi: int, target: Chain)

  datatype Action =
    | Jump(target: Chain)
    | Goto(target: Chain)
    | Return
    | Drop
    | Reject
    | SetMark
    | ClearMark
    | Masquerade
    | UpdateAffinity(affinity: SetName)
    | Dnat(ip: string, port: nat)
    | NumgenVmap(total: int, arms: seq<Arm>)
    | AddrVmap(container: Container)
    | PortVmap(container: Container)

  datatype Rule = Rule(matches: seq<Match>, action: Action)

  type Key = seq<string>

  /** A place in a container. */
  datatype Slot = Slot(container: Container, key: Key)

  type Elements = map<Slot, ElementValue>

  datatype Kernel = Kernel(
    chains: map<Chain, seq<Rule>>,
    containers: set<Container>,
    elements: Elements,
    sets: map<SetName, set<string>>)

  datatype Op =
    | AddChain(chain: Chain)
    | FlushChain(chain: Chain)
    | DeleteChain(chain: Chain)
    | AddRule(chain: Chain, rule: Rule)
    | AddContainer(container: Container)
    | FlushContainer(container: Container)
    | AddElement(slot: Slot, value: ElementValue)
    | DeleteElement(slot: Slot)
    | AddSet(name: SetName)
    | FlushSet(name: SetName)
    | DeleteSet(name: SetName)
    | AddSetElement(name: SetName, member: string)

  // ---- References ----

  predicate RuleTargets(r: Rule, c: Chain) {
    match r.action
    case Jump(t) => t == c
    case Goto(t) => t == c
    case NumgenVmap(_, arms) => exists i :: 0 <= i < |arms| && arms[i].target == c
    case _ => false
  }

  predicate RuleUsesSet(r: Rule, s: SetName) {
    || (exists i ::
          0 <= i < |r.matches|
          && (r.matches[i] == SaddrInSet(s) || (r.matches[i] == DaddrInNodePortIPs && s == NodePortIPs)))
    || r.action == UpdateAffinity(s)
  }

  predicate RuleUsesContainer(r: Rule, m: Container) {
    || (exists i :: 0 <= i < |r.matches| && r.matches[i] == DaddrInClusterIPs && m == ClusterIPs)
    || r.action == AddrVmap(m)
    || r.action == PortVmap(m)
  }

  /** Everything the rule names exists. */
  ghost predicate RuleResolves(k: Kernel, r: Rule) {
    && (forall c :: RuleTargets(r, c) ==> c in k.chains)
    && (forall s :: RuleUsesSet(r, s) ==> s in k.sets)
    && (forall m :: RuleUsesContainer(r, m) ==> m in k.containers)
  }

  ghost predicate ChainReferenced(k: Kernel, c: Chain) {
    || (exists d, i :: d in k.chains && 0 <= i < |k.chains[d]| && RuleTargets(k.chains[d][i], c))
    || (exists s :: s in k.elements && k.elements[s] == GotoChain(c))
  }

  ghost predicate SetReferenced(k: Kernel, s: SetName) {
    exists d, i :: d in k.chains && 0 <= i < |k.chains[d]| && RuleUsesSet(k.chains[d][i], s)
  }

  /** Referential closure of a kernel state. */
  ghost predicate Closed(k: Kernel) {
    && (forall d, i :: d in k.chains && 0 <= i < |k.chains[d]| ==> RuleResolves(k, k.chains[d][i]))
    && (forall s :: s in k.elements && k.elements[s].GotoChain? ==> k.elements[s].chain in k.chains)
  }

  // ---- Transactions ----

  function Flushed(es: Elements, m: Container): Elements {
    map s | s in es && s.container != m :: es[s]
  }

  ghost function Apply(k: Kernel, op: Op): Option<Kernel> {
    match op
    case AddChain(c) => Some(if c in k.chains then k else k.(chains := k.chains[c := []]))
    case FlushChain(c) => if c in k.chains then Some(k.(chains := k.chains[c := []])) else None
    case DeleteChain(c) =>
      if c in k.chains && !ChainReferenced(k, c) then Some(k.(chains := k.chains - {c})) else None
    case AddRule(c, r) =>
      if c in k.chains && RuleResolves(k, r) then Some(k.(chains := k.chains[c := k.chains[c] + [r]])) else None
    case AddContainer(m) => Some(k.(containers := k.containers + {m}))
    case FlushContainer(m) => if m in k.containers then Some(k.(elements := Flushed(k.elements, m))) else None
    case AddElement(s, v) =>
      if s.container in k.containers && (v.GotoChain? ==> v.chain in k.chains)
         && (s in k.elements ==> k.elements[s] == v)
      then Some(k.(elements := k.elements[s := v])) else None
    case DeleteElement(s) => if s in k.elements then Some(k.(elements := k.elements - {s})) else None
    case AddSet(s) => Some(if s in k.sets then k else k.(sets := k.sets[s := {}]))
    case FlushSet(s) => if s in k.sets then Some(k.(sets := k.sets[s := {}])) else None
    case DeleteSet(s) => if s in k.sets && !SetReferenced(k, s) then Some(k.(sets := k.sets - {s})) else None
    case AddSetElement(s, ip) => if s in k.sets then Some(k.(sets := k.sets[s := k.sets[s] + {ip}])) else None
  }

  /** A transaction is atomic: the first refused operation refuses all of it. */
  ghost function Run(k: Kernel, tx: seq<Op>): Option<Kernel>
    decreases |tx|
  {
    if tx == [] then Some(k)
    else
      var before := Run(k, tx[..|tx| - 1]);
      if before.None? then None else Apply(before.value, tx[|tx| - 1])
  }

  /** Appending one operation applies it to what the transaction has built so far. */
  lemma RunSnoc(k: Kernel, tx: seq<Op>, op: Op)
    ensures Run(k, tx + [op]) ==
            (if Run(k, tx).None? then None else Apply(Run(k, tx).value, op))
  {
    assert (tx + [op])[..|tx|] == tx;
  }

  // ---- No accepted transaction leaves a dangling reference ----

  lemma ApplyKeepsClosed(k: Kernel, op: Op)
    requires Closed(k) && Apply(k, op).Some?
    ensures Closed(Apply(k, op).value)
  {
    var k' := Apply(k, op).value;
    forall d, i | d in k'.chains && 0 <= i < |k'.chains[d]|
      ensures RuleResolves(k', k'.chains[d][i])
    {
      if d in k.chains && i < |k.chains[d]| {
        assert RuleResolves(k, k.chains[d][i]);
      }
    }
  }

  lemma {:induction false} RunKeepsClosed(k: Kernel, tx: seq<Op>)
    requires Closed(k) && Run(k, tx).Some?
    ensures Closed(Run(k, tx).value)
    decreases |tx|
  {
    if tx != [] {
      RunKeepsClosed(k, tx[..|tx| - 1]);
      ApplyKeepsClosed(Run(k, tx[..|tx| - 1]).value, tx[|tx| - 1]);
    }
  }
}
