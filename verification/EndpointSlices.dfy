/** From EndpointSlice objects to endpoint lists (endpointslicecache.go): grouping and ordering. */
module EndpointSlices {
  import opened Strings
  import opened ProxyTypes

  /** A parsed address: its canonical text and its family. */
  datatype Address = Address(canonical: string, isIPv6: bool)

  datatype SlicePort = SlicePort(name: Option<string>, port: Option<nat>, protocol: Protocol)

  datatype SliceEndpoint = SliceEndpoint(
    addresses: seq<Address>,
    nodeName: Option<string>,
    ready: Option<bool>,
    serving: Option<bool>,
    terminating: Option<bool>,
    zones: seq<string>)

  /** `serviceName` is the value of the service-name label, "" if it is not set. */
  datatype EndpointSlice = EndpointSlice(
    ns: string,
    name: string,
    serviceName: string,
    supportedAddressType: bool,
    ports: seq<SlicePort>,
    endpoints: seq<SliceEndpoint>)

  /** What is fixed for one cache: the node it runs on, its IP family, and the hints feature gate. */
  datatype Node = Node(hostname: string, ipv6: bool, topologyAwareHints: bool)

  type Slices = map<string, EndpointSlice>

  type EndpointsMap = map<ServicePortName, seq<Endpoint>>

  // ---- Which endpoints a set of slices offers ----

  predicate ValidPort(port: SlicePort) {
    port.name.Some? && port.port.Some? && port.port.value != 0
  }

  predicate ValidEndpoint(node: Node, ep: SliceEndpoint) {
    ep.addresses != [] && ep.addresses[0].isIPv6 == node.ipv6
  }

  function MakeEndpoint(node: Node, ep: SliceEndpoint, port: nat): Endpoint
    requires ValidEndpoint(node, ep)
  {
    Endpoint(ep.addresses[0].canonical, port,
             ep.nodeName.Some? && node.hostname != "" && ep.nodeName.value == node.hostname,
             ep.ready.None? || ep.ready.value,
             ep.serving.None? || ep.serving.value,
             ep.terminating.Some? && ep.terminating.value,
             if node.topologyAwareHints then set z | z in ep.zones else {})
  }

  datatype Offer = Offer(spn: ServicePortName, ep: Endpoint)

  function PortName(nn: NamespacedName, port: SlicePort): ServicePortName
    requires ValidPort(port)
  {
    ServicePortName(nn, port.name.value, port.protocol)
  }

  /** The offers of the first `n` endpoints of a slice under one port. */
  function PortOffers(node: Node, nn: NamespacedName, port: SlicePort, eps: seq<SliceEndpoint>, n: nat): set<Offer>
    requires n <= |eps|
  {
    if !ValidPort(port) then {}
    else set i | 0 <= i < n && ValidEndpoint(node, eps[i]) ::
           Offer(PortName(nn, port), MakeEndpoint(node, eps[i], port.port.value))
  }

  /** The offers of the first `n` ports of a slice. */
  function SliceOffers(node: Node, nn: NamespacedName, slice: EndpointSlice, n: nat): set<Offer>
    requires n <= |slice.ports|
  {
    set i, o | 0 <= i < n && o in PortOffers(node, nn, slice.ports[i], slice.endpoints, |slice.endpoints|) :: o
  }

  /** Everything a set of slices offers for one service. */
  function Offers(node: Node, nn: NamespacedName, slices: Slices): set<Offer> {
    set name, o | name in slices && o in SliceOffers(node, nn, slices[name], |slices[name].ports|) :: o
  }

  // ---- The grouping ----

  ghost predicate StrictlySorted(eps: seq<Endpoint>) {
    forall i, j :: 0 <= i < j < |eps| ==> Less(eps[i].String(), eps[j].String())
  }

  lemma SortedUnique(eps: seq<Endpoint>)
    requires StrictlySorted(eps)
    ensures UniqueAddresses(eps)
  {
    forall i, j | 0 <= i < j < |eps|
      ensures eps[i].String() != eps[j].String()
    {
      LessIrreflexive(eps[i].String());
    }
  }

  /** A list answers the offers of a port: one endpoint per offered address, local if any offer of it is. */
  ghost predicate Answers(eps: seq<Endpoint>, n: ServicePortName, offers: set<Offer>) {
    && StrictlySorted(eps)
    && (forall e :: e in eps ==> Offer(n, e) in offers)
    && (forall o :: o in offers && o.spn == n ==>
          exists e :: e in eps && e.String() == o.ep.String() && (o.ep.isLocal ==> e.isLocal))
  }

  /** The ports with offers, each with a list that answers them. */
  ghost predicate Grouping(m: EndpointsMap, offers: set<Offer>) {
    && (forall n :: n in m <==> exists o :: o in offers && o.spn == n)
    && (forall n :: n in m ==> Answers(m[n], n, offers))
  }

  /** Offers of one address under one port agree on everything (the API's promise for overlapping slices). */
  ghost predicate Agreeing(offers: set<Offer>) {
    forall a, b :: a in offers && b in offers && a.spn == b.spn && a.ep.String() == b.ep.String() ==> a == b
  }

  /** Two sorted lists with the same members are the same list. */
  lemma {:induction false} SortedSame(a: seq<Endpoint>, b: seq<Endpoint>)
    requires StrictlySorted(a) && StrictlySorted(b)
    requires forall e :: e in a <==> e in b
    ensures a == b
    decreases |a|
  {
    HasMember(b);
    if a != [] {
      assert a[0] in b;
      SameHead(a, b);
      forall e
        ensures e in a[1..] <==> e in b[1..]
      {
        TailMembers(a, e);
        TailMembers(b, e);
      }
      SortedSame(a[1..], b[1..]);
      assert a == [a[0]] + a[1..] && b == [b[0]] + b[1..];
    }
  }

  lemma HasMember(b: seq<Endpoint>)
    ensures b != [] ==> b[0] in b
  {
  }

  lemma SameHead(a: seq<Endpoint>, b: seq<Endpoint>)
    requires StrictlySorted(a) && StrictlySorted(b) && a != [] && b != []
    requires forall e :: e in a <==> e in b
    ensures a[0] == b[0]
  {
    hide ProxyTypes.Endpoint.String, Less;
    assert a[0] in b && b[0] in a;
    var i :| 0 <= i < |a| && a[i] == b[0];
    var j :| 0 <= j < |b| && b[j] == a[0];
    if i > 0 && j > 0 {
      LessTransitive(a[0].String(), a[i].String(), a[0].String());
      LessIrreflexive(a[0].String());
    }
  }

  lemma TailMembers(a: seq<Endpoint>, e: Endpoint)
    requires StrictlySorted(a) && a != []
    ensures e in a[1..] <==> e in a && e != a[0]
  {
    if e in a && e != a[0] {
      var i :| 0 <= i < |a| && a[i] == e;
      assert a[1..][i - 1] == e;
    }
    if e in a[1..] {
      var i :| 0 <= i < |a[1..]| && a[1..][i] == e;
      assert a[i + 1] == e;
      LessIrreflexive(e.String());
    }
  }

  /** When overlapping slices agree, the grouping is one map, whatever order the slices were read in. */
  lemma GroupingUnique(a: EndpointsMap, b: EndpointsMap, offers: set<Offer>)
    requires Grouping(a, offers) && Grouping(b, offers) && Agreeing(offers)
    ensures a == b
  {
    hide Answers, Agreeing;
    assert a.Keys == b.Keys;
    forall n | n in a
      ensures a[n] == b[n]
    {
      AnswersUnique(a[n], b[n], n, offers);
    }
  }

  lemma AnswersUnique(a: seq<Endpoint>, b: seq<Endpoint>, n: ServicePortName, offers: set<Offer>)
    requires Answers(a, n, offers) && Answers(b, n, offers) && Agreeing(offers)
    ensures a == b
  {
    forall e
      ensures e in a <==> e in b
    {
      if e in a { AnswerShared(a, b, n, offers, e); }
      if e in b { AnswerShared(b, a, n, offers, e); }
    }
    SortedSame(a, b);
  }

  lemma AnswerShared(a: seq<Endpoint>, b: seq<Endpoint>, n: ServicePortName, offers: set<Offer>, e: Endpoint)
    requires Answers(a, n, offers) && Answers(b, n, offers) && Agreeing(offers) && e in a
    ensures e in b
  {
    var o := Offer(n, e);
    assert o in offers;
    var f :| f in b && f.String() == e.String() && (e.isLocal ==> f.isLocal);
    assert Offer(n, f) in offers && Offer(n, f) == o;
  }

  // ---- What the lists are, said by the fields of the slices alone ----

  /** Entry `j` of the slice lists this address under its port `i`, for this service port and IP family. */
  ghost predicate Lists(slice: EndpointSlice, i: int, j: int, node: Node, n: ServicePortName, ip: string, port: nat) {
    && 0 <= i < |slice.ports| && 0 <= j < |slice.endpoints|
    && slice.ports[i].name == Some(n.port) && slice.ports[i].protocol == n.protocol
    && slice.ports[i].port == Some(port) && port != 0
    && |slice.endpoints[j].addresses| > 0 && slice.endpoints[j].addresses[0] == Address(ip, node.ipv6)
  }

  /** Some slice lists the address, with this entry. */
  ghost predicate ListedAs(slices: Slices, node: Node, n: ServicePortName, ip: string, port: nat, ep: SliceEndpoint) {
    exists name, i, j ::
      name in slices && Lists(slices[name], i, j, node, n, ip, port) && slices[name].endpoints[j] == ep
  }

  /** The entry is on this node. */
  ghost predicate Here(node: Node, ep: SliceEndpoint) {
    node.hostname != "" && ep.nodeName == Some(node.hostname)
  }

  /** The endpoint has the conditions and hints of the entry. */
  ghost predicate Describes(node: Node, ep: SliceEndpoint, e: Endpoint) {
    && (e.ready <==> ep.ready != Some(false))
    && (e.serving <==> ep.serving != Some(false))
    && (e.terminating <==> ep.terminating == Some(true))
    && (forall z :: z in e.zoneHints <==> node.topologyAwareHints && z in ep.zones)
  }

  /**
   The lists of a service are what its slices say: every listed address appears, with the conditions
   of an entry that lists it, and local exactly if some entry that lists it is on this node.
   */
  ghost predicate AsSliced(m: EndpointsMap, node: Node, nn: NamespacedName, slices: Slices) {
    && (forall n :: n in m ==> n.nn == nn && StrictlySorted(m[n]))
    && (forall n, e :: n in m && e in m[n] ==> FromEntries(slices, node, n, e))
    && (forall n: ServicePortName, ip, port, ep :: n.nn == nn && ListedAs(slices, node, n, ip, port, ep) ==>
          Appears(m, n, ip, port))
  }

  ghost predicate FromEntries(slices: Slices, node: Node, n: ServicePortName, e: Endpoint) {
    && (exists ep :: ListedAs(slices, node, n, e.ip, e.port, ep) && Describes(node, ep, e))
    && (e.isLocal <==> exists ep :: ListedAs(slices, node, n, e.ip, e.port, ep) && Here(node, ep))
  }

  ghost predicate Appears(m: EndpointsMap, n: ServicePortName, ip: string, port: nat) {
    n in m && exists e :: e in m[n] && e.ip == ip && e.port == port
  }

  /** An offer comes from an entry. */
  lemma OfferListed(node: Node, nn: NamespacedName, slices: Slices, o: Offer) returns (ep: SliceEndpoint)
    requires o in Offers(node, nn, slices)
    ensures o.spn.nn == nn && ListedAs(slices, node, o.spn, o.ep.ip, o.ep.port, ep) && Describes(node, ep, o.ep)
    ensures o.ep.isLocal <==> Here(node, ep)
  {
    var name :| name in slices && o in SliceOffers(node, nn, slices[name], |slices[name].ports|);
    var slice := slices[name];
    var i :| 0 <= i < |slice.ports| && o in PortOffers(node, nn, slice.ports[i], slice.endpoints, |slice.endpoints|);
    var j :| 0 <= j < |slice.endpoints| && ValidEndpoint(node, slice.endpoints[j])
             && o == Offer(PortName(nn, slice.ports[i]), MakeEndpoint(node, slice.endpoints[j],
                                                                      slice.ports[i].port.value));
    ep := slice.endpoints[j];
    assert Lists(slice, i, j, node, o.spn, o.ep.ip, o.ep.port);
  }

  /** An entry makes an offer. */
  lemma ListedOffers(node: Node, nn: NamespacedName, slices: Slices, n: ServicePortName, ip: string, port: nat,
                     ep: SliceEndpoint)
    returns (o: Offer)
    requires n.nn == nn && ListedAs(slices, node, n, ip, port, ep)
    ensures o in Offers(node, nn, slices) && o.spn == n && o.ep.ip == ip && o.ep.port == port
    ensures Describes(node, ep, o.ep) && (o.ep.isLocal <==> Here(node, ep))
  {
    var name, i, j :| name in slices && Lists(slices[name], i, j, node, n, ip, port) && slices[name].endpoints[j] == ep;
    var slice := slices[name];
    assert ValidPort(slice.ports[i]) && ValidEndpoint(node, ep);
    o := Offer(PortName(nn, slice.ports[i]), MakeEndpoint(node, ep, port));
    assert o in PortOffers(node, nn, slice.ports[i], slice.endpoints, |slice.endpoints|);
    assert o in SliceOffers(node, nn, slice, |slice.ports|);
  }

  lemma EntryOfListed(m: EndpointsMap, node: Node, nn: NamespacedName, slices: Slices, n: ServicePortName, e: Endpoint)
    requires Grouping(m, Offers(node, nn, slices)) && n in m && e in m[n]
    ensures n.nn == nn && FromEntries(slices, node, n, e)
  {
    hide Offers, Less, ListedAs, Describes, Here, JoinHostPort;
    var offers := Offers(node, nn, slices);
    var from := OfferListed(node, nn, slices, Offer(n, e));
    if ep :| ListedAs(slices, node, n, e.ip, e.port, ep) && Here(node, ep) {
      var o := ListedOffers(node, nn, slices, n, e.ip, e.port, ep);
      var f :| f in m[n] && f.String() == o.ep.String() && (o.ep.isLocal ==> f.isLocal);
      SortedUnique(m[n]);
      SameEntry(m[n], e, f);
    }
  }

  lemma SameEntry(eps: seq<Endpoint>, e: Endpoint, f: Endpoint)
    requires UniqueAddresses(eps) && e in eps && f in eps && e.String() == f.String()
    ensures e == f
  {
    hide ProxyTypes.Endpoint.String;
    var i :| 0 <= i < |eps| && eps[i] == e;
    var j :| 0 <= j < |eps| && eps[j] == f;
  }

  lemma EntriesListed(m: EndpointsMap, node: Node, nn: NamespacedName, slices: Slices, n: ServicePortName, ip: string,
                      port: nat, ep: SliceEndpoint)
    requires Grouping(m, Offers(node, nn, slices)) && n.nn == nn && ListedAs(slices, node, n, ip, port, ep)
    ensures Appears(m, n, ip, port)
  {
    hide Offers, Less, ListedAs, Describes, Here, JoinHostPort;
    var o := ListedOffers(node, nn, slices, n, ip, port, ep);
    assert Answers(m[n], n, Offers(node, nn, slices));
    var e :| e in m[n] && e.String() == o.ep.String() && (o.ep.isLocal ==> e.isLocal);
    JoinHostPortInjective(e.ip, e.port, ip, port);
  }

  /** A grouping of the offers is what the slices say. */
  lemma GroupingIsAsSliced(m: EndpointsMap, node: Node, nn: NamespacedName, slices: Slices)
    requires Grouping(m, Offers(node, nn, slices))
    ensures AsSliced(m, node, nn, slices)
  {
    hide Offers, ListedAs, FromEntries, Appears, StrictlySorted;
    forall n, e | n in m && e in m[n]
      ensures FromEntries(slices, node, n, e)
    {
      EntryOfListed(m, node, nn, slices, n, e);
    }
    forall n: ServicePortName, ip, port, ep | n.nn == nn && ListedAs(slices, node, n, ip, port, ep)
      ensures Appears(m, n, ip, port)
    {
      EntriesListed(m, node, nn, slices, n, ip, port, ep);
    }
    forall n | n in m
      ensures n.nn == nn
    {
      var o :| o in Offers(node, nn, slices) && o.spn == n;
      var from := OfferListed(node, nn, slices, o);
    }
  }

  /** Entries that list one address under one port have the same conditions and hints, and are on the same side. */
  ghost predicate EntriesAgree(slices: Slices, node: Node, nn: NamespacedName) {
    forall n: ServicePortName, ip, port, a, b ::
      n.nn == nn && ListedAs(slices, node, n, ip, port, a) && ListedAs(slices, node, n, ip, port, b) ==>
        && (a.ready != Some(false) <==> b.ready != Some(false))
        && (a.serving != Some(false) <==> b.serving != Some(false))
        && (a.terminating == Some(true) <==> b.terminating == Some(true))
        && (Here(node, a) <==> Here(node, b))
        && (node.topologyAwareHints ==> forall z :: z in a.zones <==> z in b.zones)
  }

  /** Agreeing entries make agreeing offers. */
  lemma EntriesAgreeOffers(slices: Slices, node: Node, nn: NamespacedName)
    requires EntriesAgree(slices, node, nn)
    ensures Agreeing(Offers(node, nn, slices))
  {
    hide Offers, ListedAs;
    var offers := Offers(node, nn, slices);
    forall a, b | a in offers && b in offers && a.spn == b.spn && a.ep.String() == b.ep.String()
      ensures a == b
    {
      JoinHostPortInjective(a.ep.ip, a.ep.port, b.ep.ip, b.ep.port);
      var x := OfferListed(node, nn, slices, a);
      var y := OfferListed(node, nn, slices, b);
      assert a.ep.zoneHints == b.ep.zoneHints;
    }
  }

  // ---- The code ----

  type AddressSet = map<string, Endpoint>

  /** One address keeps one endpoint, a local one if any offer was local. */
  ghost predicate Deduplicates(endpointSet: AddressSet, n: ServicePortName, offers: set<Offer>) {
    && (forall a :: a in endpointSet ==> endpointSet[a].String() == a && Offer(n, endpointSet[a]) in offers)
    && (forall o :: o in offers && o.spn == n ==>
          o.ep.String() in endpointSet && (o.ep.isLocal ==> endpointSet[o.ep.String()].isLocal))
  }

  lemma DeduplicatesAdd(endpointSet: AddressSet, n: ServicePortName, offers: set<Offer>, e: Endpoint)
    requires Deduplicates(endpointSet, n, offers)
    ensures Deduplicates(if e.String() !in endpointSet || e.isLocal then endpointSet[e.String() := e] else endpointSet,
                         n, offers + {Offer(n, e)})
  {
  }

  method AddEndpoints(node: Node, nn: NamespacedName, port: SlicePort, endpointSet: AddressSet, eps: seq<SliceEndpoint>,
                      ghost before: set<Offer>)
    returns (r: AddressSet)
    requires ValidPort(port) && Deduplicates(endpointSet, PortName(nn, port), before)
    ensures Deduplicates(r, PortName(nn, port), before + PortOffers(node, nn, port, eps, |eps|))
  {
    hide Deduplicates, PortOffers, MakeEndpoint, ValidEndpoint, ProxyTypes.Endpoint.String;
    r := endpointSet;
    ghost var n := PortName(nn, port);
    NoOffersYet(node, nn, port, eps);
    assert before + {} == before;
    for i := 0 to |eps|
      invariant Deduplicates(r, n, before + PortOffers(node, nn, port, eps, i))
    {
      var ep := eps[i];
      OffersSnoc(node, nn, port, eps, i);
      if ValidEndpoint(node, ep) {
        var e := MakeEndpoint(node, ep, port.port.value);
        assert before + PortOffers(node, nn, port, eps, i) + {Offer(n, e)} ==
                 before + PortOffers(node, nn, port, eps, i + 1);
        DeduplicatesAdd(r, n, before + PortOffers(node, nn, port, eps, i), e);
        if e.String() !in r || e.isLocal {
          r := r[e.String() := e];
        }
      } else {
        assert PortOffers(node, nn, port, eps, i + 1) == PortOffers(node, nn, port, eps, i);
      }
    }
  }

  lemma NoOffersYet(node: Node, nn: NamespacedName, port: SlicePort, eps: seq<SliceEndpoint>)
    ensures PortOffers(node, nn, port, eps, 0) == {}
  {
  }

  lemma OffersSnoc(node: Node, nn: NamespacedName, port: SlicePort, eps: seq<SliceEndpoint>, i: nat)
    requires ValidPort(port) && i < |eps|
    ensures PortOffers(node, nn, port, eps, i + 1) ==
            PortOffers(node, nn, port, eps, i)
            + if ValidEndpoint(node, eps[i]) then {Offer(PortName(nn, port),
                                                         MakeEndpoint(node, eps[i], port.port.value))} else {}
  {
    hide MakeEndpoint, ValidEndpoint;
  }

  type Groups = map<ServicePortName, AddressSet>

  ghost predicate GroupsDeduplicate(groups: Groups, offers: set<Offer>) {
    && (forall n :: n in groups ==> Deduplicates(groups[n], n, offers))
    && (forall o :: o in offers ==> o.spn in groups)
  }

  lemma DeduplicatesOthers(endpointSet: AddressSet, n: ServicePortName, offers: set<Offer>, more: set<Offer>)
    requires Deduplicates(endpointSet, n, offers) && forall o :: o in more ==> o.spn != n
    ensures Deduplicates(endpointSet, n, offers + more)
  {
  }

  method AddPort(node: Node, nn: NamespacedName, port: SlicePort, eps: seq<SliceEndpoint>, groups: Groups,
                 ghost before: set<Offer>)
    returns (r: Groups)
    requires GroupsDeduplicate(groups, before)
    ensures GroupsDeduplicate(r, before + PortOffers(node, nn, port, eps, |eps|))
  {
    r := groups;
    if port.name.None? || port.port.None? || port.port.value == 0 {
      assert before + {} == before;
      return;
    }
    var n := PortName(nn, port);
    ghost var more := PortOffers(node, nn, port, eps, |eps|);
    var endpointSet := if n in groups then groups[n] else map[];
    endpointSet := AddEndpoints(node, nn, port, endpointSet, eps, before);
    forall other | other in groups && other != n
      ensures Deduplicates(groups[other], other, before + more)
    {
      DeduplicatesOthers(groups[other], other, before, more);
    }
    hide Deduplicates;
    r := groups[n := endpointSet];
  }

  method EndpointInfoByServicePort(node: Node, nn: NamespacedName, slices: Slices) returns (groups: Groups)
    ensures GroupsDeduplicate(groups, Offers(node, nn, slices))
  {
    groups := map[];
    var rest := slices.Keys;
    ghost var offers: set<Offer> := {};
    while rest != {}
      invariant rest <= slices.Keys
      invariant offers ==
                set name, o |
                  && name in slices.Keys - rest
                  && o in SliceOffers(node, nn, slices[name], |slices[name].ports|)
                  :: o
      invariant GroupsDeduplicate(groups, offers)
    {
      hide GroupsDeduplicate, SliceOffers;
      var name :| name in rest;
      groups := AddSlice(node, nn, slices[name], groups, offers);
      offers := offers + SliceOffers(node, nn, slices[name], |slices[name].ports|);
      rest := rest - {name};
    }
    assert offers == Offers(node, nn, slices);
  }

  method AddSlice(node: Node, nn: NamespacedName, slice: EndpointSlice, groups: Groups, ghost before: set<Offer>)
    returns (r: Groups)
    requires GroupsDeduplicate(groups, before)
    ensures GroupsDeduplicate(r, before + SliceOffers(node, nn, slice, |slice.ports|))
  {
    r := groups;
    assert before + SliceOffers(node, nn, slice, 0) == before;
    for i := 0 to |slice.ports|
      invariant GroupsDeduplicate(r, before + SliceOffers(node, nn, slice, i))
    {
      hide GroupsDeduplicate;
      r := AddPort(node, nn, slice.ports[i], slice.endpoints, r, before + SliceOffers(node, nn, slice, i));
      SliceOffersSnoc(node, nn, slice, i);
      assert before + SliceOffers(node, nn, slice, i)
             + PortOffers(node, nn, slice.ports[i], slice.endpoints, |slice.endpoints|)
          == before + SliceOffers(node, nn, slice, i + 1);
    }
  }

  lemma SliceOffersSnoc(node: Node, nn: NamespacedName, slice: EndpointSlice, i: nat)
    requires i < |slice.ports|
    ensures SliceOffers(node, nn, slice, i + 1) ==
            SliceOffers(node, nn, slice, i) + PortOffers(node, nn, slice.ports[i], slice.endpoints, |slice.endpoints|)
  {
    hide PortOffers;
  }

  /** `sort.Sort(byEndpoint(...))`, by insertion. */
  function Insert(eps: seq<Endpoint>, e: Endpoint): (r: seq<Endpoint>)
    ensures forall x :: x in r <==> x in eps || x == e
  {
    if eps == [] then [e]
    else if Less(e.String(), eps[0].String()) then [e] + eps
    else [eps[0]] + Insert(eps[1..], e)
  }

  lemma {:induction false} InsertSorted(eps: seq<Endpoint>, e: Endpoint)
    requires StrictlySorted(eps) && forall x :: x in eps ==> x.String() != e.String()
    ensures StrictlySorted(Insert(eps, e))
    decreases |eps|
  {
    if eps != [] {
      if Less(e.String(), eps[0].String()) {
        SortedCons(e, eps);
      } else {
        LessTotal(e.String(), eps[0].String());
        assert eps[0] in eps;
        InsertSorted(eps[1..], e);
        SortedCons(eps[0], Insert(eps[1..], e));
      }
    }
  }

  lemma SortedCons(e: Endpoint, eps: seq<Endpoint>)
    requires StrictlySorted(eps)
    requires eps != [] ==> Less(e.String(), eps[0].String())
    ensures StrictlySorted([e] + eps)
  {
    var all := [e] + eps;
    forall i, j | 0 <= i < j < |all|
      ensures Less(all[i].String(), all[j].String())
    {
      if i == 0 && j > 1 {
        LessTransitive(e.String(), eps[0].String(), eps[j - 1].String());
      }
    }
  }

  /** The endpoints of one port in address order. */
  method SortedEndpoints(endpointSet: AddressSet) returns (eps: seq<Endpoint>)
    requires forall a :: a in endpointSet ==> endpointSet[a].String() == a
    ensures StrictlySorted(eps)
    ensures forall e :: e in eps <==> e.String() in endpointSet && endpointSet[e.String()] == e
  {
    eps := [];
    var rest := endpointSet.Keys;
    while rest != {}
      invariant rest <= endpointSet.Keys && StrictlySorted(eps)
      invariant forall e :: e in eps <==> e.String() in endpointSet.Keys - rest && endpointSet[e.String()] == e
    {
      var a :| a in rest;
      InsertSorted(eps, endpointSet[a]);
      eps := Insert(eps, endpointSet[a]);
      rest := rest - {a};
    }
  }

  lemma KeyedByAddress(endpointSet: AddressSet, n: ServicePortName, offers: set<Offer>)
    requires Deduplicates(endpointSet, n, offers)
    ensures forall a :: a in endpointSet ==> endpointSet[a].String() == a
  {
    hide ProxyTypes.Endpoint.String;
  }

  /** `getEndpointsMap`: a grouping of what the slices offer. */
  method GetEndpointsMap(node: Node, nn: NamespacedName, slices: Slices) returns (m: EndpointsMap)
    ensures Grouping(m, Offers(node, nn, slices))
    ensures AsSliced(m, node, nn, slices)
  {
    hide Offers, Answers, Deduplicates, AsSliced;
    var groups := EndpointInfoByServicePort(node, nn, slices);
    ghost var offers := Offers(node, nn, slices);
    m := map[];
    var rest := groups.Keys;
    while rest != {}
      invariant rest <= groups.Keys
      invariant forall n :: n in m <==> n in groups.Keys - rest && groups[n] != map[]
      invariant forall n :: n in m ==> Answers(m[n], n, offers)
    {
      var n :| n in rest;
      rest := rest - {n};
      if |groups[n]| > 0 {
        KeyedByAddress(groups[n], n, offers);
        var eps := SortedEndpoints(groups[n]);
        DeduplicatedAnswers(eps, groups[n], n, offers);
        m := m[n := eps];
      }
    }
    forall n
      ensures n in m <==> exists o :: o in offers && o.spn == n
    {
      OfferedIffGrouped(groups, offers, n);
    }
    GroupingIsAsSliced(m, node, nn, slices);
  }

  lemma OfferedIffGrouped(groups: Groups, offers: set<Offer>, n: ServicePortName)
    requires GroupsDeduplicate(groups, offers)
    ensures (exists o :: o in offers && o.spn == n) <==> n in groups && groups[n] != map[]
  {
    if o :| o in offers && o.spn == n {
      assert o.spn in groups && o.ep.String() in groups[n];
    }
    if n in groups && groups[n] != map[] {
      var a :| a in groups[n];
      assert Offer(n, groups[n][a]) in offers;
    }
  }

  lemma DeduplicatedAnswers(eps: seq<Endpoint>, endpointSet: AddressSet, n: ServicePortName, offers: set<Offer>)
    requires Deduplicates(endpointSet, n, offers) && StrictlySorted(eps)
    requires forall e :: e in eps <==> e.String() in endpointSet && endpointSet[e.String()] == e
    ensures Answers(eps, n, offers)
  {
    forall o | o in offers && o.spn == n
      ensures exists e :: e in eps && e.String() == o.ep.String() && (o.ep.isLocal ==> e.isLocal)
    {
      var e := endpointSet[o.ep.String()];
      assert e in eps;
    }
  }
}
