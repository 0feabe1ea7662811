/**
 `EndpointSliceCache` and `EndpointsMap` (endpointslicecache.go, endpointschangetracker.go): slices
 applied and pending, and the endpoint lists that follow them.
 */
module EndpointTracker {
  import opened ProxyTypes
  import opened EndpointSlices

  datatype SliceData = SliceData(slice: EndpointSlice, remove: bool)

  type SlicesByName = map<string, SliceData>

  datatype SliceTracker = SliceTracker(applied: SlicesByName, pending: SlicesByName)

  type Trackers = map<NamespacedName, SliceTracker>

  // ---- Specification ----

  /** The live slices of every service, by slice name: what the API server holds. */
  type Live = map<NamespacedName, Slices>

  function LiveSlices(live: Live, nn: NamespacedName): Slices {
    if nn in live then live[nn] else map[]
  }

  predicate HasKeys(slice: EndpointSlice) {
    slice.serviceName != "" && slice.ns != "" && slice.name != ""
  }

  function ServiceKey(slice: EndpointSlice): NamespacedName {
    NamespacedName(slice.ns, slice.serviceName)
  }

  /** A slice event as the API server sees it; slices the proxy ignores leave no trace. */
  function ObserveSlice(live: Live, slice: EndpointSlice, remove: bool): Live {
    if !slice.supportedAddressType || !HasKeys(slice) then live
    else
      var was := LiveSlices(live, ServiceKey(slice));
      live[ServiceKey(slice) := if remove then was - {slice.name} else was[slice.name := slice]]
  }

  function AppliedSlices(t: SliceTracker): Slices {
    map name | name in t.applied :: t.applied[name].slice
  }

  /** The pending slices laid over the applied ones. */
  function ViewOf(t: SliceTracker): Slices {
    map name | name in t.applied.Keys + t.pending.Keys && !(name in t.pending && t.pending[name].remove) ::
      if name in t.pending then t.pending[name].slice else t.applied[name].slice
  }

  function TrackerOf(trackers: Trackers, nn: NamespacedName): SliceTracker {
    if nn in trackers then trackers[nn] else SliceTracker(map[], map[])
  }

  /** Applied data are additions only. */
  ghost predicate NoRemovalsApplied(trackers: Trackers) {
    forall nn, name :: nn in trackers && name in trackers[nn].applied ==> !trackers[nn].applied[name].remove
  }

  /** What is pending leads from the applied slices to the live ones. */
  ghost predicate Follows(trackers: Trackers, live: Live) {
    && NoRemovalsApplied(trackers)
    && forall nn :: ViewOf(TrackerOf(trackers, nn)) == LiveSlices(live, nn)
  }

  /** The lists are a grouping of the applied slices of every service. */
  ghost predicate GroupsApplied(em: EndpointsMap, node: Node, trackers: Trackers) {
    forall nn :: Grouping(Restrict(em, nn), Offers(node, nn, AppliedSlices(TrackerOf(trackers, nn))))
  }

  /** Overlapping applied slices agree on the conditions of an endpoint. */
  ghost predicate AppliedAgree(node: Node, trackers: Trackers) {
    forall nn :: Agreeing(Offers(node, nn, AppliedSlices(TrackerOf(trackers, nn))))
  }

  /** The entries of one service. */
  function Restrict(em: EndpointsMap, nn: NamespacedName): EndpointsMap {
    map n | n in em && n.nn == nn :: em[n]
  }

  /** The lists are a grouping of the live slices of every service. */
  ghost predicate GroupsLive(em: EndpointsMap, node: Node, live: Live) {
    forall nn :: Grouping(Restrict(em, nn), Offers(node, nn, LiveSlices(live, nn)))
  }

  // ---- Facts about one service's tracker ----

  /** Whether recording the data would change anything. */
  predicate DataChanged(t: SliceTracker, name: string, data: SliceData) {
    if name in t.pending then data != t.pending[name]
    else if name in t.applied then data != t.applied[name]
    else !data.remove
  }

  /** Recorded or not, the view becomes what the event says; not recorded means not changed. */
  lemma ViewAfterEvent(t: SliceTracker, name: string, data: SliceData)
    requires forall n :: n in t.applied ==> !t.applied[n].remove
    ensures var t' := if DataChanged(t, name, data) then t.(pending := t.pending[name := data]) else t;
            ViewOf(t') == if data.remove then ViewOf(t) - {name} else ViewOf(t)[name := data.slice]
    ensures !DataChanged(t, name, data) ==>
              (if data.remove then ViewOf(t) - {name} else ViewOf(t)[name := data.slice]) == ViewOf(t)
  {
  }

  /**
   An event counts as a change exactly if it changes the view, or if it repeats a removal that is
   already pending with another last state of the slice.
   */
  lemma ChangedIff(t: SliceTracker, name: string, data: SliceData)
    requires forall n :: n in t.applied ==> !t.applied[n].remove
    ensures DataChanged(t, name, data) <==>
              || (if data.remove then name in ViewOf(t) else name !in ViewOf(t) || ViewOf(t)[name] != data.slice)
              || (data.remove && name in t.pending && t.pending[name].remove && t.pending[name].slice != data.slice)
  {
    hide ViewOf;
    InView(t, name);
  }

  lemma InView(t: SliceTracker, name: string)
    ensures name in ViewOf(t) <==>
              if name in t.pending then !t.pending[name].remove else name in t.applied
    ensures name in ViewOf(t) ==>
              ViewOf(t)[name] == if name in t.pending then t.pending[name].slice else t.applied[name].slice
  {
  }

  /** Applying what is pending makes the applied slices the view. */
  function Checkout(t: SliceTracker): SliceTracker {
    SliceTracker(map name | name in t.applied.Keys + t.pending.Keys && !(name in t.pending && t.pending[name].remove) ::
                   if name in t.pending then t.pending[name] else t.applied[name],
                 map[])
  }

  lemma CheckoutView(t: SliceTracker)
    ensures AppliedSlices(Checkout(t)) == ViewOf(t) == ViewOf(Checkout(t))
    ensures (forall n :: n in t.applied ==> !t.applied[n].remove) ==>
              forall n :: n in Checkout(t).applied ==> !Checkout(t).applied[n].remove
    ensures t.pending == map[] && (forall n :: n in t.applied ==> !t.applied[n].remove) ==>
              AppliedSlices(t) == ViewOf(t)
  {
  }

  lemma OffersNamed(node: Node, nn: NamespacedName, slices: Slices)
    ensures forall o :: o in Offers(node, nn, slices) ==> o.spn.nn == nn
  {
  }

  // ---- Stale conntrack entries ----

  datatype ServiceEndpoint = ServiceEndpoint(endpoint: string, spn: ServicePortName)

  function ListOf(em: EndpointsMap, n: ServicePortName): seq<Endpoint> {
    if n in em then em[n] else []
  }

  predicate HasAddress(eps: seq<Endpoint>, a: string) {
    exists e :: e in eps && e.String() == a
  }

  predicate AnyServing(eps: seq<Endpoint>) {
    exists e :: e in eps && e.serving
  }

  /** UDP endpoints that were serving and whose address is gone. */
  ghost predicate IsDeleted(before: EndpointsMap, after: EndpointsMap, d: ServiceEndpoint) {
    && d.spn.protocol == UDP
    && (exists e :: e in ListOf(before, d.spn) && e.serving && e.String() == d.endpoint)
    && !HasAddress(ListOf(after, d.spn), d.endpoint)
  }

  /** UDP ports that went from no serving endpoint to some. */
  ghost predicate IsNewlyActive(before: EndpointsMap, after: EndpointsMap, n: ServicePortName) {
    n.protocol == UDP && AnyServing(ListOf(after, n)) && !AnyServing(ListOf(before, n))
  }

  // ---- The code ----

  method AddressIn(eps: seq<Endpoint>, a: string) returns (found: bool)
    ensures found == HasAddress(eps, a)
  {
    for i := 0 to |eps|
      invariant forall j :: 0 <= j < i ==> eps[j].String() != a
    {
      if eps[i].String() == a {
        return true;
      }
    }
    return false;
  }

  method CountServing(eps: seq<Endpoint>) returns (n: nat)
    ensures n > 0 <==> AnyServing(eps)
  {
    n := 0;
    for i := 0 to |eps|
      invariant n > 0 <==> exists j :: 0 <= j < i && eps[j].serving
    {
      if eps[i].serving {
        n := n + 1;
      }
    }
  }

  /** The deleted endpoints of one port, appended. */
  method DeletedOfPort(n: ServicePortName, epList: seq<Endpoint>, after: EndpointsMap, ghost before: EndpointsMap,
                       deleted: seq<ServiceEndpoint>)
    returns (deleted': seq<ServiceEndpoint>)
    requires n.protocol == UDP && n in before && before[n] == epList
    ensures forall d :: d in deleted' <==> d in deleted || (d.spn == n && IsDeleted(before, after, d))
  {
    deleted' := deleted;
    for i := 0 to |epList|
      invariant forall d :: d in deleted' <==>
                  d in deleted || (d.spn == n && !HasAddress(ListOf(after, n), d.endpoint)
                                   && exists j :: 0 <= j < i && epList[j].serving && epList[j].String() == d.endpoint)
    {
      hide HasAddress;
      var ep := epList[i];
      if ep.serving {
        var kept := AddressIn(if n in after then after[n] else [], ep.String());
        if !kept {
          deleted' := deleted' + [ServiceEndpoint(ep.String(), n)];
        }
      }
    }
  }

  /** `detectStaleConntrackEntries`, appending to both result lists. */
  method DetectStaleConntrackEntries(before: EndpointsMap, after: EndpointsMap, deleted: seq<ServiceEndpoint>,
                                     active: seq<ServicePortName>)
    returns (deleted': seq<ServiceEndpoint>, active': seq<ServicePortName>)
    ensures forall d :: d in deleted' <==> d in deleted || IsDeleted(before, after, d)
    ensures forall n :: n in active' <==> n in active || IsNewlyActive(before, after, n)
  {
    deleted', active' := deleted, active;
    var rest := before.Keys;
    while rest != {}
      invariant rest <= before.Keys
      invariant forall d :: d in deleted' <==>
                  d in deleted || (d.spn in before.Keys - rest && IsDeleted(before, after, d))
    {
      hide IsDeleted;
      var n :| n in rest;
      rest := rest - {n};
      if n.protocol == UDP {
        deleted' := DeletedOfPort(n, before[n], after, before, deleted');
      } else {
        NotUDPNotDeleted(before, after, n);
      }
    }
    assert forall d :: IsDeleted(before, after, d) ==> d.spn in before;
    var todo := after.Keys;
    while todo != {}
      invariant todo <= after.Keys
      invariant forall n :: n in active' <==> n in active || (n in after.Keys - todo && IsNewlyActive(before, after, n))
    {
      var n :| n in todo;
      todo := todo - {n};
      if n.protocol == UDP {
        var serving := CountServing(after[n]);
        var oldServing := CountServing(if n in before then before[n] else []);
        if serving > 0 && oldServing == 0 {
          active' := active' + [n];
        }
      }
    }
    assert forall n :: IsNewlyActive(before, after, n) ==> n in after;
  }

  lemma NotUDPNotDeleted(before: EndpointsMap, after: EndpointsMap, n: ServicePortName)
    requires n.protocol != UDP
    ensures forall d: ServiceEndpoint :: d.spn == n ==> !IsDeleted(before, after, d)
  {
  }

  /** The loop that applies what is pending for one service. */
  method ApplyPending(t: SliceTracker) returns (t': SliceTracker)
    ensures t' == Checkout(t)
  {
    t' := t;
    while t'.pending != map[]
      invariant t'.pending.Keys <= t.pending.Keys
      invariant forall name :: name in t'.pending ==> t'.pending[name] == t.pending[name]
      invariant Checkout(t') == Checkout(t)
      decreases |t'.pending.Keys|
    {
      var name :| name in t'.pending;
      var data := t'.pending[name];
      var applied := if data.remove then t'.applied - {name} else t'.applied[name := data];
      var next := SliceTracker(applied, t'.pending - {name});
      CheckoutStep(t', name);
      assert next.pending.Keys == t'.pending.Keys - {name};
      t' := next;
    }
    assert t'.applied == Checkout(t').applied;
  }

  /** Applying one pending entry early changes nothing in the end. */
  lemma CheckoutStep(t: SliceTracker, name: string)
    requires name in t.pending
    ensures var data := t.pending[name];
            Checkout(SliceTracker(if data.remove then t.applied - {name} else t.applied[name := data],
                                  t.pending - {name})) == Checkout(t)
  {
  }

  datatype EndpointsChange = EndpointsChange(previous: EndpointsMap, current: EndpointsMap)

  type Changes = map<NamespacedName, EndpointsChange>

  /** The trackers after everything pending has been applied. */
  function CheckedOut(trackers: Trackers): Trackers {
    map nn | nn in trackers :: if trackers[nn].pending == map[] then trackers[nn] else Checkout(trackers[nn])
  }

  function PendingServices(trackers: Trackers): set<NamespacedName> {
    set nn | nn in trackers && trackers[nn].pending != map[]
  }

  /** Each change leads from a grouping of the applied slices to a grouping of the new ones. */
  ghost predicate ChangesFrom(changes: Changes, node: Node, trackers: Trackers) {
    && changes.Keys == PendingServices(trackers)
    && forall nn :: nn in changes ==> ChangeFrom(changes[nn], node, nn, trackers[nn])
  }

  ghost predicate ChangeFrom(change: EndpointsChange, node: Node, nn: NamespacedName, t: SliceTracker) {
    && Grouping(change.previous, Offers(node, nn, AppliedSlices(t)))
    && Grouping(change.current, Offers(node, nn, AppliedSlices(Checkout(t))))
  }

  // ---- Lists after an update ----

  function Replace(em: EndpointsMap, change: EndpointsChange): EndpointsMap {
    (em - change.previous.Keys) + change.current
  }

  lemma GroupingNamed(m: EndpointsMap, node: Node, nn: NamespacedName, slices: Slices)
    requires Grouping(m, Offers(node, nn, slices))
    ensures forall n :: n in m ==> n.nn == nn
  {
    OffersNamed(node, nn, slices);
    hide Offers;
  }

  /** Groupings of the same offers have the same ports. */
  lemma GroupingKeys(a: EndpointsMap, b: EndpointsMap, offers: set<Offer>)
    requires Grouping(a, offers) && Grouping(b, offers)
    ensures a.Keys == b.Keys
  {
    hide Answers;
  }

  /** One change replaces the lists of its service and no others. */
  lemma ReplaceRestricts(em: EndpointsMap, change: EndpointsChange, node: Node, nn: NamespacedName, t: SliceTracker)
    requires ChangeFrom(change, node, nn, t)
    requires Grouping(Restrict(em, nn), Offers(node, nn, AppliedSlices(t)))
    ensures Restrict(Replace(em, change), nn) == change.current
    ensures forall n: ServicePortName :: n.nn != nn ==> (n in Replace(em, change) <==> n in em)
    ensures forall n: ServicePortName :: n.nn != nn && n in em ==> Replace(em, change)[n] == em[n]
  {
    GroupingNamed(change.previous, node, nn, AppliedSlices(t));
    GroupingNamed(change.current, node, nn, AppliedSlices(Checkout(t)));
    GroupingKeys(change.previous, Restrict(em, nn), Offers(node, nn, AppliedSlices(t)));
    hide *;
    ReplaceAt(em, change, nn);
  }

  lemma ReplaceAt(em: EndpointsMap, change: EndpointsChange, nn: NamespacedName)
    requires change.previous.Keys == Restrict(em, nn).Keys
    requires forall n :: n in change.current ==> n.nn == nn
    ensures Restrict(Replace(em, change), nn) == change.current
    ensures forall n: ServicePortName :: n.nn != nn ==> (n in Replace(em, change) <==> n in em)
    ensures forall n: ServicePortName :: n.nn != nn && n in em ==> Replace(em, change)[n] == em[n]
  {
  }

  /** The services in `done` have their new lists, the others their old ones. */
  ghost predicate ReplacedSoFar(em: EndpointsMap, now: EndpointsMap, changes: Changes, done: set<NamespacedName>) {
    && (forall nn :: nn in done && nn in changes ==> Restrict(now, nn) == changes[nn].current)
    && (forall n: ServicePortName :: n.nn !in done ==> (n in now <==> n in em))
    && (forall n: ServicePortName :: n.nn !in done && n in em ==> now[n] == em[n])
  }

  lemma RestrictSame(a: EndpointsMap, b: EndpointsMap, nn: NamespacedName)
    requires forall n: ServicePortName :: n.nn == nn ==> (n in a <==> n in b)
    requires forall n: ServicePortName :: n.nn == nn && n in a ==> a[n] == b[n]
    ensures Restrict(a, nn) == Restrict(b, nn)
  {
  }

  lemma ReplacedStep(em: EndpointsMap, now: EndpointsMap, changes: Changes, done: set<NamespacedName>,
                     nn: NamespacedName, node: Node, trackers: Trackers)
    requires ReplacedSoFar(em, now, changes, done) && nn in changes && nn !in done
    requires ChangesFrom(changes, node, trackers) && GroupsApplied(em, node, trackers)
    ensures ReplacedSoFar(em, Replace(now, changes[nn]), changes, done + {nn})
  {
    hide *;
    ChangeReplacesOnly(em, now, changes, done, nn, node, trackers);
    ReplacedCore(em, now, Replace(now, changes[nn]), changes, done, nn);
  }

  lemma ChangeReplacesOnly(em: EndpointsMap, now: EndpointsMap, changes: Changes, done: set<NamespacedName>,
                           nn: NamespacedName, node: Node, trackers: Trackers)
    requires ReplacedSoFar(em, now, changes, done) && nn in changes && nn !in done
    requires ChangesFrom(changes, node, trackers) && GroupsApplied(em, node, trackers)
    ensures ReplacesOnly(now, Replace(now, changes[nn]), nn, changes[nn].current)
  {
    hide Offers, AppliedSlices, Checkout, Grouping, ChangeFrom, Replace, Restrict;
    assert ChangeFrom(changes[nn], node, nn, trackers[nn]);
    assert Grouping(Restrict(em, nn), Offers(node, nn, AppliedSlices(TrackerOf(trackers, nn))));
    RestrictSame(now, em, nn);
    ReplaceRestricts(now, changes[nn], node, nn, trackers[nn]);
  }

  /** `now` and `next` differ only in the lists of `nn`, which are `current` in `next`. */
  ghost predicate ReplacesOnly(now: EndpointsMap, next: EndpointsMap, nn: NamespacedName, current: EndpointsMap) {
    && Restrict(next, nn) == current
    && (forall n: ServicePortName :: n.nn != nn ==> (n in next <==> n in now))
    && (forall n: ServicePortName :: n.nn != nn && n in now ==> next[n] == now[n])
  }

  lemma ReplacedCore(em: EndpointsMap, now: EndpointsMap, next: EndpointsMap, changes: Changes,
                     done: set<NamespacedName>, nn: NamespacedName)
    requires ReplacedSoFar(em, now, changes, done) && nn in changes && ReplacesOnly(now, next, nn, changes[nn].current)
    requires nn !in done
    ensures ReplacedSoFar(em, next, changes, done + {nn})
  {
    forall other | other in done && other in changes
      ensures Restrict(next, other) == changes[other].current
    {
      RestrictSame(next, now, other);
    }
    hide Restrict;
  }

  /** With everything applied, the lists group the applied slices again. */
  lemma ReplacedAll(em: EndpointsMap, em': EndpointsMap, changes: Changes, node: Node, trackers: Trackers)
    requires ReplacedSoFar(em, em', changes, changes.Keys)
    requires ChangesFrom(changes, node, trackers) && GroupsApplied(em, node, trackers)
    ensures GroupsApplied(em', node, CheckedOut(trackers))
    ensures forall n: ServicePortName :: n.nn !in changes ==> (n in em <==> n in em') && (n in em ==> em[n] == em'[n])
  {
    hide Offers, AppliedSlices, Checkout;
    forall nn
      ensures Grouping(Restrict(em', nn), Offers(node, nn, AppliedSlices(TrackerOf(CheckedOut(trackers), nn))))
    {
      if nn in changes {
        assert ChangeFrom(changes[nn], node, nn, trackers[nn]);
      } else {
        RestrictSame(em', em, nn);
        assert Grouping(Restrict(em, nn), Offers(node, nn, AppliedSlices(TrackerOf(trackers, nn))));
      }
    }
  }

  /** Nothing is pending any more, and the view is as before. */
  lemma CheckedOutFollows(trackers: Trackers, live: Live)
    requires Follows(trackers, live)
    ensures Follows(CheckedOut(trackers), live)
    ensures forall nn :: AppliedSlices(TrackerOf(CheckedOut(trackers), nn)) == LiveSlices(live, nn)
    ensures PendingServices(CheckedOut(trackers)) == {}
  {
    forall nn
      ensures ViewOf(TrackerOf(CheckedOut(trackers), nn)) == LiveSlices(live, nn)
      ensures AppliedSlices(TrackerOf(CheckedOut(trackers), nn)) == LiveSlices(live, nn)
      ensures forall name :: name in TrackerOf(CheckedOut(trackers), nn).applied ==>
                !TrackerOf(CheckedOut(trackers), nn).applied[name].remove
    {
      assert ViewOf(TrackerOf(trackers, nn)) == LiveSlices(live, nn);
      CheckoutView(TrackerOf(trackers, nn));
    }
  }

  /** The reports compare the lists before and after, when overlapping slices agree. */
  lemma ReportsCompareLists(em: EndpointsMap, em': EndpointsMap, changes: Changes, node: Node, trackers: Trackers)
    requires ReplacedSoFar(em, em', changes, changes.Keys)
    requires ChangesFrom(changes, node, trackers) && GroupsApplied(em, node, trackers)
    requires forall nn :: Agreeing(Offers(node, nn, AppliedSlices(TrackerOf(trackers, nn))))
    ensures forall d :: IsDeleted(em, em', d) <==>
              exists nn :: nn in changes && IsDeleted(changes[nn].previous, changes[nn].current, d)
    ensures forall n :: IsNewlyActive(em, em', n) <==>
              exists nn :: nn in changes && IsNewlyActive(changes[nn].previous, changes[nn].current, n)
  {
    hide Offers, AppliedSlices, Checkout, IsDeleted, IsNewlyActive;
    forall nn | nn in changes
      ensures changes[nn].previous == Restrict(em, nn) && changes[nn].current == Restrict(em', nn)
    {
      assert ChangeFrom(changes[nn], node, nn, trackers[nn]);
      assert Grouping(Restrict(em, nn), Offers(node, nn, AppliedSlices(TrackerOf(trackers, nn))));
      GroupingUnique(changes[nn].previous, Restrict(em, nn), Offers(node, nn, AppliedSlices(trackers[nn])));
    }
    hide ChangesFrom, GroupsApplied, Grouping, Agreeing;
    forall d
      ensures IsDeleted(em, em', d) <==>
                exists nn :: nn in changes && IsDeleted(changes[nn].previous, changes[nn].current, d)
    {
      DeletedLocally(em, em', changes, d);
    }
    forall n
      ensures IsNewlyActive(em, em', n) <==>
                exists nn :: nn in changes && IsNewlyActive(changes[nn].previous, changes[nn].current, n)
    {
      NewlyActiveLocally(em, em', changes, n);
    }
  }

  lemma DeletedLocally(em: EndpointsMap, em': EndpointsMap, changes: Changes, d: ServiceEndpoint)
    requires ReplacedSoFar(em, em', changes, changes.Keys)
    requires forall nn :: nn in changes ==>
               changes[nn].previous == Restrict(em, nn) && changes[nn].current == Restrict(em', nn)
    ensures IsDeleted(em, em', d) <==>
              exists nn :: nn in changes && IsDeleted(changes[nn].previous, changes[nn].current, d)
  {
    var nn := d.spn.nn;
    assert ListOf(Restrict(em, nn), d.spn) == ListOf(em, d.spn)
           && ListOf(Restrict(em', nn), d.spn) == ListOf(em', d.spn);
    forall other | other in changes && other != nn
      ensures ListOf(changes[other].previous, d.spn) == []
    {
    }
    if nn !in changes {
      assert ListOf(em, d.spn) == ListOf(em', d.spn);
    }
  }

  lemma NewlyActiveLocally(em: EndpointsMap, em': EndpointsMap, changes: Changes, n: ServicePortName)
    requires ReplacedSoFar(em, em', changes, changes.Keys)
    requires forall nn :: nn in changes ==>
               changes[nn].previous == Restrict(em, nn) && changes[nn].current == Restrict(em', nn)
    ensures IsNewlyActive(em, em', n) <==>
              exists nn :: nn in changes && IsNewlyActive(changes[nn].previous, changes[nn].current, n)
  {
    var nn := n.nn;
    assert ListOf(Restrict(em, nn), n) == ListOf(em, n) && ListOf(Restrict(em', nn), n) == ListOf(em', n);
    forall other | other in changes && other != nn
      ensures ListOf(changes[other].current, n) == []
    {
    }
    if nn !in changes {
      assert ListOf(em, n) == ListOf(em', n);
    }
  }

  /** The trackers after one slice event. */
  ghost predicate EventRecorded(trackers: Trackers, trackers': Trackers, key: NamespacedName, name: string,
                                data: SliceData) {
    var t := TrackerOf(trackers, key);
    && TrackerOf(trackers', key) == (if DataChanged(t, name, data) then t.(pending := t.pending[name := data]) else t)
    && (forall nn :: nn != key ==> TrackerOf(trackers', nn) == TrackerOf(trackers, nn))
  }

  lemma FollowsStep(trackers: Trackers, trackers': Trackers, live: Live, slice: EndpointSlice, remove: bool)
    requires slice.supportedAddressType && HasKeys(slice) && Follows(trackers, live)
    requires EventRecorded(trackers, trackers', ServiceKey(slice), slice.name, SliceData(slice, remove))
    ensures Follows(trackers', ObserveSlice(live, slice, remove))
    ensures !DataChanged(TrackerOf(trackers, ServiceKey(slice)), slice.name, SliceData(slice, remove)) ==>
              forall nn :: LiveSlices(ObserveSlice(live, slice, remove), nn) == LiveSlices(live, nn)
    ensures forall nn :: TrackerOf(trackers', nn).applied == TrackerOf(trackers, nn).applied
  {
    var key, data := ServiceKey(slice), SliceData(slice, remove);
    assert ViewOf(TrackerOf(trackers, key)) == LiveSlices(live, key);
    ViewAfterEvent(TrackerOf(trackers, key), slice.name, data);
    hide ViewOf, DataChanged;
    forall nn
      ensures ViewOf(TrackerOf(trackers', nn)) == LiveSlices(ObserveSlice(live, slice, remove), nn)
    {
      assert ViewOf(TrackerOf(trackers, nn)) == LiveSlices(live, nn);
    }
    forall nn, name | nn in trackers' && name in trackers'[nn].applied
      ensures !trackers'[nn].applied[name].remove
    {
      assert TrackerOf(trackers', nn).applied == TrackerOf(trackers, nn).applied;
    }
  }

  /** The reports collected from the changes of the services in `done`. */
  ghost predicate ReportsSoFar(changes: Changes, done: set<NamespacedName>, deleted: seq<ServiceEndpoint>,
                               newlyActive: seq<ServicePortName>) {
    && done <= changes.Keys
    && (forall d :: d in deleted <==>
          exists nn :: nn in done && IsDeleted(changes[nn].previous, changes[nn].current, d))
    && (forall n :: n in newlyActive <==>
          exists nn :: nn in done && IsNewlyActive(changes[nn].previous, changes[nn].current, n))
  }

  lemma ReportsStep(changes: Changes, done: set<NamespacedName>, nn: NamespacedName,
                    deleted: seq<ServiceEndpoint>, newlyActive: seq<ServicePortName>,
                    deleted': seq<ServiceEndpoint>, newlyActive': seq<ServicePortName>)
    requires nn in changes && ReportsSoFar(changes, done, deleted, newlyActive)
    requires forall d :: d in deleted' <==> d in deleted || IsDeleted(changes[nn].previous, changes[nn].current, d)
    requires forall n :: n in newlyActive' <==>
               n in newlyActive || IsNewlyActive(changes[nn].previous, changes[nn].current, n)
    ensures ReportsSoFar(changes, done + {nn}, deleted', newlyActive')
  {
    hide IsDeleted, IsNewlyActive;
  }

  /** What an update reports, when overlapping slices agree. */
  ghost predicate ReportsExact(em: EndpointsMap, em': EndpointsMap, deleted: seq<ServiceEndpoint>,
                               newlyActive: seq<ServicePortName>) {
    && (forall d :: d in deleted <==> IsDeleted(em, em', d))
    && (forall n :: n in newlyActive <==> IsNewlyActive(em, em', n))
  }

  lemma ReportsAll(em: EndpointsMap, em': EndpointsMap, changes: Changes, node: Node, trackers: Trackers,
                   deleted: seq<ServiceEndpoint>, newlyActive: seq<ServicePortName>)
    requires ReplacedSoFar(em, em', changes, changes.Keys) && ReportsSoFar(changes, changes.Keys, deleted, newlyActive)
    requires ChangesFrom(changes, node, trackers) && GroupsApplied(em, node, trackers)
    ensures AppliedAgree(node, trackers) ==> ReportsExact(em, em', deleted, newlyActive)
  {
    hide IsDeleted, IsNewlyActive, ReplacedSoFar, ChangesFrom, GroupsApplied, Agreeing, Offers, AppliedSlices;
    if AppliedAgree(node, trackers) {
      ReportsCompareLists(em, em', changes, node, trackers);
    }
  }

  lemma UpdateStart(em: EndpointsMap, changes: Changes, node: Node, trackers: Trackers)
    requires ChangesFrom(changes, node, trackers)
    ensures ReplacedSoFar(em, em, changes, {}) && ReportsSoFar(changes, {}, [], [])
    ensures changes.Keys == PendingServices(trackers)
  {
  }

  lemma ReplaceIs(em: EndpointsMap, change: EndpointsChange)
    ensures (em - change.previous.Keys) + change.current == Replace(em, change)
  {
  }

  method Unmerge(em: EndpointsMap, other: EndpointsMap) returns (r: EndpointsMap)
    ensures r == em - other.Keys
  {
    r := em;
    var rest := other.Keys;
    while rest != {}
      invariant rest <= other.Keys && r == em - (other.Keys - rest)
    {
      var n :| n in rest;
      rest := rest - {n};
      r := r - {n};
    }
    assert other.Keys - rest == other.Keys;
  }

  method Merge(em: EndpointsMap, other: EndpointsMap) returns (r: EndpointsMap)
    ensures r == em + other
  {
    r := em;
    var rest := other.Keys;
    while rest != {}
      invariant rest <= other.Keys && r == em + (other - rest)
    {
      var n :| n in rest;
      rest := rest - {n};
      r := r[n := other[n]];
    }
    assert other - {} == other;
  }

  class EndpointSliceCache {
    const node: Node
    var trackers: Trackers

    constructor (node: Node)
      ensures this.node == node && trackers == map[]
    {
      this.node, trackers := node, map[];
    }

    /** `EndpointSliceUpdate`: true exactly when something became pending; false leaves the view as it was. */
    method EndpointSliceUpdate(slice: EndpointSlice, remove: bool, ghost live: Live) returns (changed: bool)
      requires Follows(trackers, live)
      modifies this
      ensures Follows(trackers, ObserveSlice(live, slice, remove))
      ensures !changed ==> forall nn :: LiveSlices(ObserveSlice(live, slice, remove), nn) == LiveSlices(live, nn)
      ensures if slice.supportedAddressType && HasKeys(slice)
              then EventRecorded(old(trackers), trackers, ServiceKey(slice), slice.name, SliceData(slice, remove))
              else trackers == old(trackers)
      ensures changed <==> slice.supportedAddressType && HasKeys(slice)
                           && DataChanged(TrackerOf(old(trackers), ServiceKey(slice)), slice.name,
                                          SliceData(slice, remove))
    {
      if !slice.supportedAddressType {
        return false;
      }
      if !HasKeys(slice) {
        return false;
      }
      changed := UpdatePending(slice, remove, live);
    }

    method UpdatePending(slice: EndpointSlice, remove: bool, ghost live: Live) returns (changed: bool)
      requires slice.supportedAddressType && HasKeys(slice) && Follows(trackers, live)
      modifies this
      ensures Follows(trackers, ObserveSlice(live, slice, remove))
      ensures !changed ==> forall nn :: LiveSlices(ObserveSlice(live, slice, remove), nn) == LiveSlices(live, nn)
      ensures EventRecorded(old(trackers), trackers, ServiceKey(slice), slice.name, SliceData(slice, remove))
      ensures changed <==>
                DataChanged(TrackerOf(old(trackers), ServiceKey(slice)), slice.name, SliceData(slice, remove))
    {
      var key, data := ServiceKey(slice), SliceData(slice, remove);
      if key !in trackers {
        trackers := trackers[key := SliceTracker(map[], map[])];
      }
      changed := DataChanged(trackers[key], slice.name, data);
      if changed {
        trackers := trackers[key := trackers[key].(pending := trackers[key].pending[slice.name := data])];
      }
      FollowsStep(old(trackers), trackers, live, slice, remove);
    }

    /** `checkoutChanges`: everything pending becomes applied, reported service by service. */
    method CheckoutChanges() returns (changes: Changes)
      modifies this
      ensures trackers == CheckedOut(old(trackers))
      ensures ChangesFrom(changes, node, old(trackers))
    {
      changes := map[];
      var rest := trackers.Keys;
      while rest != {}
        invariant rest <= trackers.Keys == old(trackers).Keys
        invariant forall nn :: nn in trackers ==>
                    trackers[nn] == if nn in rest then old(trackers)[nn] else CheckedOut(old(trackers))[nn]
        invariant forall nn :: nn in changes <==> nn in PendingServices(old(trackers)) && nn !in rest
        invariant forall nn :: nn in changes ==> ChangeFrom(changes[nn], node, nn, old(trackers)[nn])
      {
        hide ChangeFrom, Checkout;
        var nn :| nn in rest;
        rest := rest - {nn};
        var t := trackers[nn];
        if t.pending != map[] {
          var change, t' := CheckoutOne(nn, t);
          trackers := trackers[nn := t'];
          changes := changes[nn := change];
        }
      }
      hide Checkout, ChangeFrom;
      assert trackers == CheckedOut(old(trackers));
    }

    method CheckoutOne(nn: NamespacedName, t: SliceTracker) returns (change: EndpointsChange, t': SliceTracker)
      ensures t' == Checkout(t) && ChangeFrom(change, node, nn, t)
    {
      var slices: Slices := map name | name in t.applied :: t.applied[name].slice;
      var previous := GetEndpointsMap(node, nn, slices);
      t' := ApplyPending(t);
      slices := map name | name in t'.applied :: t'.applied[name].slice;
      var current := GetEndpointsMap(node, nn, slices);
      change := EndpointsChange(previous, current);
    }

    /** `EndpointsMap.Update`. */
    method UpdateEndpointsMap(em: EndpointsMap, ghost live: Live)
      returns (em': EndpointsMap, updated: set<NamespacedName>, deleted: seq<ServiceEndpoint>,
               newlyActive: seq<ServicePortName>)
      requires Follows(trackers, live) && GroupsApplied(em, node, trackers)
      modifies this
      ensures Follows(trackers, live) && GroupsApplied(em', node, trackers) && GroupsLive(em', node, live)
      ensures trackers == CheckedOut(old(trackers)) && PendingServices(trackers) == {}
      ensures updated == PendingServices(old(trackers))
      ensures forall n: ServicePortName :: n.nn !in updated ==> (n in em <==> n in em') && (n in em ==> em[n] == em'[n])
      ensures AppliedAgree(node, old(trackers)) ==> ReportsExact(em, em', deleted, newlyActive)
    {
      hide *;
      ghost var before := trackers;
      var changes := CheckoutChanges();
      em', updated, deleted, newlyActive := em, {}, [], [];
      var rest := changes.Keys;
      UpdateStart(em, changes, node, before);
      while rest != {}
        invariant rest <= changes.Keys && updated == changes.Keys - rest
        invariant trackers == CheckedOut(before)
        invariant ReplacedSoFar(em, em', changes, updated)
        invariant ReportsSoFar(changes, updated, deleted, newlyActive)
      {
        var nn :| nn in rest;
        rest := rest - {nn};
        var change := changes[nn];
        ReplacedStep(em, em', changes, updated, nn, node, before);
        ReplaceIs(em', change);
        em' := Unmerge(em', change.previous);
        em' := Merge(em', change.current);
        var deleted', newlyActive' := DetectStaleConntrackEntries(change.previous, change.current, deleted,
                                                                  newlyActive);
        ReportsStep(changes, updated, nn, deleted, newlyActive, deleted', newlyActive');
        deleted, newlyActive := deleted', newlyActive';
        updated := updated + {nn};
      }
      assert updated == changes.Keys;
      ReplacedAll(em, em', changes, node, before);
      CheckedOutFollows(before, live);
      GroupsAreLive(em', node, trackers, live);
      ReportsAll(em, em', changes, node, before, deleted, newlyActive);
    }
  }

  lemma GroupsAreLive(em: EndpointsMap, node: Node, trackers: Trackers, live: Live)
    requires GroupsApplied(em, node, trackers)
    requires forall nn :: AppliedSlices(TrackerOf(trackers, nn)) == LiveSlices(live, nn)
    ensures GroupsLive(em, node, live)
  {
    hide Grouping, Offers, AppliedSlices;
    forall nn
      ensures Grouping(Restrict(em, nn), Offers(node, nn, LiveSlices(live, nn)))
    {
      assert Grouping(Restrict(em, nn), Offers(node, nn, AppliedSlices(TrackerOf(trackers, nn))));
    }
  }
}
