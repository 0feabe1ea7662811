/**
 A packet interpreter over the kernel state, and what the installed rules mean: for every packet
 that opens a connection through prerouting, every random number and every affinity state.
 */
module Packets {
  import opened ProxyTypes
  import opened Nftables
  import opened RuleCompiler
  import opened SyncState
  import opened Weights
  import opened Frontends

  // ---- The interpreter ----

  datatype Packet = Packet(saddr: string, daddr: string, protocol: Protocol, dport: nat)

  /** The node's addresses, whether the packet comes from a local pod, and the random number it will draw. */
  datatype Env = Env(local: set<string>, localhost: set<string>, fromPod: bool, random: nat)

  /** The masquerade mark, and the affinity sets the source address was entered into. */
  datatype Trace = Trace(marked: bool, learned: set<SetName>)

  /** `Ran`: the chain ended without a verdict. `Stuck`: a missing chain, a bad rule or too deep a nesting. */
  datatype Verdict = Ran | Drops | Rejects | Translates(ip: string, port: nat) | Masquerades | Stuck

  datatype Outcome = Outcome(verdict: Verdict, trace: Trace)

  predicate InRanges(ranges: seq<Cidr>, ip: string) {
    exists i :: 0 <= i < |ranges| && ip in ranges[i].members
  }

  predicate InSet(k: Kernel, s: SetName, ip: string) {
    s in k.sets && ip in k.sets[s]
  }

  predicate Holds(k: Kernel, env: Env, p: Packet, t: Trace, m: Match) {
    match m
    case CtStateNew => true
    case DaddrIs(ip) => p.daddr == ip
    case DportIs(protocol, port) => p.protocol == protocol && p.dport == port
    case L4ProtocolIs(protocol) => p.protocol == protocol
    case SaddrIs(ip) => p.saddr == ip
    case SaddrNotIn(ranges, ips) => !InRanges(ranges, p.saddr) && p.saddr !in ips
    case SaddrInSet(s) => InSet(k, s, p.saddr)
    case FromLocalPod => env.fromPod
    case NotFromLocalPod => !env.fromPod
    case SaddrTypeLocal => p.saddr in env.local
    case DaddrTypeLocal => p.daddr in env.local
    case DaddrNotLocalhost => p.daddr !in env.localhost
    case DaddrInNodePortIPs => InSet(k, NodePortIPs, p.daddr)
    case DaddrInClusterIPs => Slot(ClusterIPs, [p.daddr]) in k.elements
    case DaddrInRanges(ranges) => InRanges(ranges, p.daddr)
    case MarkIsClear => !t.marked
  }

  predicate AllHold(k: Kernel, env: Env, p: Packet, t: Trace, ms: seq<Match>) {
    ms == [] || (Holds(k, env, p, t, ms[0]) && AllHold(k, env, p, t, ms[1..]))
  }

  /** Run a chain; `depth` bounds how deep chains may nest. */
  function EvalChain(k: Kernel, env: Env, p: Packet, c: Chain, t: Trace, depth: nat): Outcome
    decreases depth, 0, 0
  {
    if depth == 0 || c !in k.chains then Outcome(Stuck, t)
    else EvalRules(k, env, p, k.chains[c], t, depth - 1)
  }

  /** Follow a verdict found in a container. */
  function EvalElement(k: Kernel, env: Env, p: Packet, v: ElementValue, t: Trace, depth: nat): Outcome
    decreases depth, 1, 0
  {
    match v
    case Member => Outcome(Stuck, t)
    case GotoChain(c) => EvalChain(k, env, p, c, t, depth)
    case DropPacket => Outcome(Drops, t)
  }

  function EvalRules(k: Kernel, env: Env, p: Packet, rules: seq<Rule>, t: Trace, depth: nat): Outcome
    decreases depth, 2, |rules|
  {
    if rules == [] then Outcome(Ran, t)
    else
      var rest := rules[1..];
      if !AllHold(k, env, p, t, rules[0].matches) then EvalRules(k, env, p, rest, t, depth)
      else
        match rules[0].action
        case Jump(c) =>
          var o := EvalChain(k, env, p, c, t, depth);
          if o.verdict == Ran then EvalRules(k, env, p, rest, o.trace, depth) else o
        case Goto(c) => EvalChain(k, env, p, c, t, depth)
        case Return => Outcome(Ran, t)
        case Drop => Outcome(Drops, t)
        case Reject => Outcome(Rejects, t)
        case SetMark => EvalRules(k, env, p, rest, t.(marked := true), depth)
        case ClearMark => EvalRules(k, env, p, rest, t.(marked := !t.marked), depth)
        case Masquerade => Outcome(Masquerades, t)
        case UpdateAffinity(s) => EvalRules(k, env, p, rest, t.(learned := t.learned + {s}), depth)
        case Dnat(ip, port) => Outcome(Translates(ip, port), t)
        case NumgenVmap(total, arms) =>
          if total <= 0 then Outcome(Stuck, t)
          else
            var arm := ArmFor(arms, env.random % total);
            if arm.Some? then EvalChain(k, env, p, arm.value, t, depth) else EvalRules(k, env, p, rest, t, depth)
        case AddrVmap(m) =>
          var v := Held(k.elements, Slot(m, AddressKey(p.daddr, p.protocol, p.dport)));
          if v.Some? then EvalElement(k, env, p, v.value, t, depth) else EvalRules(k, env, p, rest, t, depth)
        case PortVmap(m) =>
          var v := Held(k.elements, Slot(m, PortKey(p.protocol, p.dport)));
          if v.Some? then EvalElement(k, env, p, v.value, t, depth) else EvalRules(k, env, p, rest, t, depth)
  }

  /** What becomes of a packet. */
  datatype Fate = Dropped | Rejected | Accepted(daddr: string, dport: nat, masqueraded: bool,
                                                learned: set<SetName>) | Broken

  /** The kernel allows sixteen nested chains. */
  const DEPTH: nat := 16

  /** The filter hook after routing, then source translation if the packet leaves the node. */
  function AfterRouting(k: Kernel, env: Env, p: Packet, t: Trace): Fate {
    var forwarded := p.daddr !in env.local;
    var f := EvalChain(k, env, p, Stock(if forwarded then FilterForward else FilterInput), t, DEPTH);
    if f.verdict == Drops then Dropped
    else if f.verdict == Rejects then Rejected
    else if f.verdict != Ran then Broken
    else if !forwarded then Accepted(p.daddr, p.dport, false, f.trace.learned)
    else
      var s := EvalChain(k, env, p, Stock(NatPostrouting), f.trace, DEPTH);
      if s.verdict != Ran && s.verdict != Masquerades then Broken
      else Accepted(p.daddr, p.dport, s.verdict == Masquerades, s.trace.learned)
  }

  /** Prerouting: filter, then destination translation, then routing. */
  function Traverse(k: Kernel, env: Env, p: Packet): Fate {
    var f := EvalChain(k, env, p, Stock(FilterPrerouting), Trace(false, {}), DEPTH);
    if f.verdict == Drops then Dropped
    else if f.verdict != Ran then Broken
    else
      var d := EvalChain(k, env, p, Stock(NatPrerouting), f.trace, DEPTH);
      if d.verdict.Translates? then AfterRouting(k, env, p.(daddr := d.verdict.ip, dport := d.verdict.port), d.trace)
      else if d.verdict == Ran then AfterRouting(k, env, p, d.trace)
      else Broken
  }

  // ---- What services promise ----

  /** The first endpoint the source address has an affinity to. */
  function Sticky(k: Kernel, spn: ServicePortName, eps: seq<Endpoint>, saddr: string): Option<Endpoint> {
    if eps == [] then None
    else if InSet(k, EpSet(spn, eps[0]), saddr) then Some(eps[0])
    else Sticky(k, spn, eps[1..], saddr)
  }

  lemma {:induction false} WaoPositive(eps: seq<Endpoint>, scores: ScoreMap)
    requires UsesWao(eps, Some(scores))
    ensures TotalScore(eps, scores) >= 1
  {
    var i :| 0 <= i < |eps| && ScoreOf(scores, eps[i].ip) > 0;
    TotalSnoc(eps, scores, i);
    TotalMonotone(eps, scores, i + 1, |eps|);
    assert eps[..|eps|] == eps;
  }

  /** The endpoint a random number picks: in proportion to the scores, or evenly if no score is positive. */
  function ByLot(eps: seq<Endpoint>, sc: Option<ScoreMap>, random: nat): (e: Endpoint)
    requires eps != []
    ensures e in eps
    ensures UsesWao(eps, sc) ==> ScoreOf(sc.value, e.ip) > 0
  {
    if UsesWao(eps, sc) then
      WaoPositive(eps, sc.value);
      var i := OwnerOf(eps, sc.value, random % TotalScore(eps, sc.value));
      TotalSnoc(eps, sc.value, i);
      eps[i]
    else eps[random % |eps|]
  }

  function Chosen(k: Kernel, p: Plan, eps: seq<Endpoint>, sc: Option<ScoreMap>, saddr: string,
                  random: nat): (e: Endpoint)
    requires eps != []
  {
    var stuck := Sticky(k, p.spn, eps, saddr);
    if p.svc.clientIPAffinity && stuck.Some? then stuck.value else ByLot(eps, sc, random)
  }

  /** Delivery to an endpoint of the list, masqueraded if marked or if an endpoint calls itself. */
  function Deliver(k: Kernel, p: Plan, eps: seq<Endpoint>, sc: Option<ScoreMap>, env: Env, pkt: Packet,
                   marked: bool): Fate
    requires eps != []
  {
    var e := Chosen(k, p, eps, sc, pkt.saddr, env.random);
    Accepted(e.ip, e.port, (marked || pkt.saddr == e.ip) && e.ip !in env.local,
             if p.svc.clientIPAffinity then {EpSet(p.spn, e)} else {})
  }

  /** Traffic to the cluster IP. */
  ghost function InternalFate(k: Kernel, p: Plan, sc: Option<ScoreMap>, cfg: Config, env: Env, pkt: Packet): Fate
    requires p.Consistent()
  {
    if !p.hasEndpoints then Rejected
    else if p.svc.internalPolicyLocal && p.local == [] then Dropped
    else Deliver(k, p, if p.svc.internalPolicyLocal then p.local else p.cluster, sc, env, pkt,
                 cfg.masqueradeAll || (cfg.localDetector && !env.fromPod))
  }

  /** Traffic to an external IP, a load-balancer address or a node port. */
  ghost function ExternalFate(k: Kernel, p: Plan, sc: Option<ScoreMap>, cfg: Config, env: Env, pkt: Packet): Fate
    requires p.Consistent() && p.svc.ExternallyAccessible()
  {
    if !p.hasEndpoints then Rejected
    else if !p.svc.externalPolicyLocal then Deliver(k, p, p.cluster, sc, env, pkt, true)
    else if cfg.localDetector && env.fromPod then Deliver(k, p, p.cluster, sc, env, pkt, false)
    else if pkt.saddr in env.local then Deliver(k, p, p.cluster, sc, env, pkt, true)
    else if p.local == [] then Dropped
    else Deliver(k, p, p.local, sc, env, pkt, false)
  }

  /** A load-balancer source range is given and does not admit the source. */
  ghost predicate Forbidden(p: Plan, cfg: Config, pkt: Packet) {
    && pkt.daddr in p.svc.loadBalancerVIPs && p.svc.loadBalancerSourceRanges != []
    && !InRanges(p.svc.loadBalancerSourceRanges, pkt.saddr)
    && !(InRanges(p.svc.loadBalancerSourceRanges, cfg.nodeIP) && pkt.saddr in p.svc.loadBalancerVIPs)
  }

  /** Node ports are served on this address. */
  ghost predicate AcceptsNodePorts(cfg: Config, env: Env, ip: string) {
    if cfg.nodePortMatchAll then ip in env.local && ip !in env.localhost
    else exists a :: a in cfg.nodeAddresses && a.ip == ip && !a.loopback
  }

  ghost predicate ClaimsAddress(plans: Plans, n: ServicePortName, pkt: Packet) {
    AddressFrontend(plans, n, pkt.daddr, pkt.protocol, pkt.dport)
  }

  ghost predicate ClaimsNodePort(plans: Plans, n: ServicePortName, cfg: Config, env: Env, pkt: Packet) {
    AcceptsNodePorts(cfg, env, pkt.daddr) && NodePortFrontend(plans, n, pkt.protocol, pkt.dport)
  }

  /** Packets no frontend claims: only stray traffic to the service network is refused. */
  ghost function UnclaimedFate(plans: Plans, cfg: Config, env: Env, pkt: Packet): Fate {
    if pkt.daddr !in env.local && IsClusterIP(plans, pkt.daddr) then Rejected
    else if pkt.daddr !in env.local && InRanges(cfg.serviceCIDRs, pkt.daddr) then Dropped
    else Accepted(pkt.daddr, pkt.dport, false, {})
  }

  /** What is to become of a packet, said without any rules. */
  ghost function Meaning(k: Kernel, plans: Plans, used: UsedScores, cfg: Config, env: Env, pkt: Packet): Fate
    requires PlansOK(plans) && plans.Keys <= used.Keys
  {
    if n :| ClaimsAddress(plans, n, pkt) then
      if Forbidden(plans[n], cfg, pkt) then Dropped
      else if pkt.daddr == plans[n].svc.clusterIP then InternalFate(k, plans[n], used[n], cfg, env, pkt)
      else ExternalFate(k, plans[n], used[n], cfg, env, pkt)
    else if n :| ClaimsNodePort(plans, n, cfg, env, pkt) then ExternalFate(k, plans[n], used[n], cfg, env, pkt)
    else UnclaimedFate(plans, cfg, env, pkt)
  }
}
