/**
 `nftElementStorage`: the proxier's own record of what its verdict maps and sets hold in the
 kernel, used to emit only the differences.
 */
module ElementStorage {
  import opened Strings
  import opened ProxyTypes
  import opened Nftables
  import opened RuleCompiler

  /** How a storage keeps a slot: with the key joined into one string. */
  datatype Stored = Stored(container: Container, text: string)

  function Store(s: Slot): Stored { Stored(s.container, Join(s.key)) }

  function Restore(t: Stored): Slot { Slot(t.container, Split(t.text)) }

  /** Storing the slot loses nothing. */
  predicate Storable(s: Slot) { Restore(Store(s)) == s }

  lemma SpaceFreeStorable(s: Slot)
    requires SpaceFreeKey(s.key)
    ensures Storable(s)
  {
    SplitJoin(s.key);
  }

  /** The record is the string-keyed picture of what the kernel holds. */
  ghost predicate Pictures(record: map<Stored, ElementValue>, held: Elements) {
    && (forall s :: s in held ==> Storable(s) && Store(s) in record && record[Store(s)] == held[s])
    && (forall t :: t in record ==> Restore(t) in held && Store(Restore(t)) == t)
  }

  lemma PicturesAt(record: map<Stored, ElementValue>, held: Elements, s: Slot)
    requires Pictures(record, held) && Storable(s)
    ensures Store(s) in record <==> s in held
    ensures s in held ==> record[Store(s)] == held[s]
  {
  }

  lemma PicturesPut(record: map<Stored, ElementValue>, held: Elements, s: Slot, v: ElementValue)
    requires Pictures(record, held) && Storable(s)
    ensures Pictures(record[Store(s) := v], held[s := v])
  {
    forall other | other in held && other != s
      ensures Store(other) != Store(s)
    {
      assert Storable(other);
    }
  }

  lemma PicturesRemove(record: map<Stored, ElementValue>, held: Elements, t: Stored)
    requires Pictures(record, held) && t in record
    ensures Pictures(record - {t}, held - {Restore(t)})
  {
    forall other | other in held - {Restore(t)}
      ensures Store(other) != t
    {
      assert Storable(other);
    }
  }

  // ---- A round of writes ----

  function SlotOf(e: Element): Slot { Slot(e.container, e.key) }

  /** Writing the elements in turn: for each slot the last write stays. */
  ghost function Puts(held: Elements, es: seq<Element>): Elements {
    if es == [] then held else Puts(held, es[..|es| - 1])[SlotOf(es[|es| - 1]) := es[|es| - 1].value]
  }

  lemma {:induction false} PutsConcat(held: Elements, a: seq<Element>, b: seq<Element>)
    ensures Puts(held, a + b) == Puts(Puts(held, a), b)
    decreases |b|
  {
    if b == [] {
      assert a + b == a;
    } else {
      PutsConcat(held, a, b[..|b| - 1]);
      assert (a + b)[..|a + b| - 1] == a + b[..|b| - 1];
    }
  }

  ghost function Written(es: seq<Element>): set<Slot> {
    set e | e in es :: SlotOf(e)
  }

  /** What a slot holds after the writes depends on what was there before only if no write names it. */
  lemma {:induction false} PutsAt(held: Elements, es: seq<Element>, s: Slot)
    ensures s in Written(es) ==> s in Puts(held, es) && s in Puts(map[], es) && Puts(held, es)[s] == Puts(map[], es)[s]
    ensures s !in Written(es) ==> s !in Puts(map[], es) && (s in Puts(held, es) <==> s in held)
    ensures s !in Written(es) && s in held ==> Puts(held, es)[s] == held[s]
  {
    if es != [] {
      var init, last := es[..|es| - 1], es[|es| - 1];
      PutsAt(held, init, s);
      assert es == init + [last];
      assert Written(es) == Written(init) + {SlotOf(last)};
    }
  }

  ghost predicate AllStorable(es: seq<Element>) {
    forall e :: e in es ==> Storable(SlotOf(e))
  }

  /** The stored keys that the writes name. */
  ghost function Touched(es: seq<Element>): set<Stored> {
    set s | s in Written(es) :: Store(s)
  }

  lemma TouchedSnoc(es: seq<Element>, e: Element)
    ensures Written(es + [e]) == Written(es) + {SlotOf(e)}
    ensures Touched(es + [e]) == Touched(es) + {Store(SlotOf(e))}
  {
    assert Written(es + [e]) == Written(es) + {SlotOf(e)};
  }

  lemma TouchedIffWritten(es: seq<Element>, s: Slot)
    requires AllStorable(es) && Storable(s)
    ensures Store(s) in Touched(es) <==> s in Written(es)
  {
    if Store(s) in Touched(es) {
      var w :| w in Written(es) && Store(w) == Store(s);
      var e :| e in es && SlotOf(e) == w;
      assert Storable(w);
    }
  }

  /** What is left when the entries stored under `gone` are deleted. */
  ghost function Without(held: Elements, gone: set<Stored>): Elements {
    map s | s in held && Store(s) !in gone :: held[s]
  }

  /** Deleting what no write named leaves exactly the last-write-wins map of the writes. */
  lemma LastWriteWins(held: Elements, es: seq<Element>, record: map<Stored, ElementValue>)
    requires AllStorable(es) && Pictures(record, Puts(held, es))
    ensures Without(Puts(held, es), record.Keys - Touched(es)) == Puts(map[], es)
  {
    var end, want := Puts(held, es), Puts(map[], es);
    forall s
      ensures s in end && Store(s) !in record.Keys - Touched(es) <==> s in want
      ensures s in want ==> end[s] == want[s]
    {
      PutsAt(held, es, s);
      if s in end {
        TouchedIffWritten(es, s);
      }
    }
  }

  /** The state of the storages in the middle of a sync that has written `es`. */
  ghost predicate MidSync(record: map<Stored, ElementValue>, leftover: set<Stored>, held: Elements, es: seq<Element>) {
    Pictures(record, held) && leftover == record.Keys - Touched(es) && AllStorable(es)
  }

  /** One more write: the record follows the kernel, and the key named is no longer left over. */
  lemma WritingSnoc(record: map<Stored, ElementValue>, leftover: set<Stored>, held: Elements, es: seq<Element>,
                    e: Element)
    requires MidSync(record, leftover, held, es) && Storable(SlotOf(e))
    ensures Store(SlotOf(e)) in record <==> SlotOf(e) in held
    ensures SlotOf(e) in held ==> record[Store(SlotOf(e))] == held[SlotOf(e)]
    ensures MidSync(record[Store(SlotOf(e)) := e.value], leftover - {Store(SlotOf(e))}, held[SlotOf(e) := e.value],
                    es + [e])
    ensures Store(SlotOf(e)) !in record ==> leftover - {Store(SlotOf(e))} == leftover
    ensures Store(SlotOf(e)) in record && record[Store(SlotOf(e))] == e.value ==>
              record[Store(SlotOf(e)) := e.value] == record
  {
    PicturesAt(record, held, SlotOf(e));
    PicturesPut(record, held, SlotOf(e), e.value);
    TouchedSnoc(es, e);
  }

  // ---- Transactions over elements ----

  lemma RunAdd(k0: Kernel, tx: seq<Op>, k: Kernel, s: Slot, v: ElementValue)
    requires Run(k0, tx) == Some(k) && s.container in k.containers && s !in k.elements
    requires v.GotoChain? ==> v.chain in k.chains
    ensures Run(k0, tx + [AddElement(s, v)]) == Some(k.(elements := k.elements[s := v]))
  {
    RunSnoc(k0, tx, AddElement(s, v));
  }

  /** Deleting a present key and adding it back with another value is accepted. */
  lemma RunReplace(k0: Kernel, tx: seq<Op>, k: Kernel, s: Slot, v: ElementValue)
    requires Run(k0, tx) == Some(k) && s.container in k.containers && s in k.elements
    requires v.GotoChain? ==> v.chain in k.chains
    ensures Run(k0, tx + [DeleteElement(s)] + [AddElement(s, v)]) == Some(k.(elements := k.elements[s := v]))
  {
    var k1 := k.(elements := k.elements - {s});
    RunSnoc(k0, tx, DeleteElement(s));
    RunSnoc(k0, tx + [DeleteElement(s)], AddElement(s, v));
    assert (k.elements - {s})[s := v] == k.elements[s := v];
  }

  /** One deletion of the clean-up loop, after those in `gone`. */
  lemma CleanupStep(k0: Kernel, tx: seq<Op>, k: Kernel, record: map<Stored, ElementValue>, gone: set<Stored>, t: Stored)
    requires Run(k0, tx) == Some(k.(elements := Without(k.elements, gone)))
    requires Pictures(record, Without(k.elements, gone)) && t in record
    ensures Run(k0, tx + [DeleteElement(Restore(t))]) == Some(k.(elements := Without(k.elements, gone + {t})))
    ensures Pictures(record - {t}, Without(k.elements, gone + {t}))
  {
    var now := Without(k.elements, gone);
    PicturesRemove(record, now, t);
    assert Without(k.elements, gone + {t}) == now - {Restore(t)} by {
      forall s | s in now
        ensures Store(s) == t <==> s == Restore(t)
      {
        assert Storable(s);
      }
    }
    RunSnoc(k0, tx, DeleteElement(Restore(t)));
  }

  const ALL_CONTAINERS: set<Container> :=
    {ClusterIPs, ServiceIPs, FirewallIPs, NoEndpointServices, NoEndpointNodePorts, ServiceNodePorts}

  lemma EveryContainer(m: Container)
    ensures m in ALL_CONTAINERS
  {
    match m
    case ClusterIPs => case ServiceIPs => case FirewallIPs =>
    case NoEndpointServices => case NoEndpointNodePorts => case ServiceNodePorts =>
  }

  lemma RunFlushContainer(k0: Kernel, tx: seq<Op>, k: Kernel, m: Container)
    requires Run(k0, tx) == Some(k) && m in k.containers
    ensures Run(k0, tx + [FlushContainer(m)]) == Some(k.(elements := Flushed(k.elements, m)))
  {
    hide Flushed;
    RunSnoc(k0, tx, FlushContainer(m));
  }

  /** What is left after flushing some containers. */
  ghost function FlushedAll(es: Elements, cs: seq<Container>): Elements {
    if cs == [] then es else Flushed(FlushedAll(es, cs[..|cs| - 1]), cs[|cs| - 1])
  }

  lemma {:induction false} FlushedAllIs(es: Elements, cs: seq<Container>, s: Slot)
    ensures s in FlushedAll(es, cs) ==> s.container !in cs
  {
    if cs != [] {
      FlushedAllIs(es, cs[..|cs| - 1], s);
    }
  }

  const SIX_CONTAINERS := [ClusterIPs, ServiceIPs, FirewallIPs, NoEndpointServices, NoEndpointNodePorts,
                           ServiceNodePorts]

  lemma NothingLeft(es: Elements)
    ensures FlushedAll(es, SIX_CONTAINERS) == map[]
  {
    var all := SIX_CONTAINERS;
    assert all[0] in all && all[1] in all && all[2] in all && all[3] in all && all[4] in all && all[5] in all;
    forall s: Slot
      ensures s !in FlushedAll(es, all)
    {
      FlushedAllIs(es, all, s);
      EveryContainer(s.container);
    }
  }

  /** Flush the six containers one after the other. */
  method FlushAll(tx: seq<Op>, ghost k0: Kernel, ghost k: Kernel) returns (tx': seq<Op>, ghost k': Kernel)
    requires Run(k0, tx) == Some(k) && ALL_CONTAINERS <= k.containers
    ensures k' == k.(elements := map[])
    ensures Run(k0, tx') == Some(k.(elements := map[]))
  {
    hide Run, Flushed;
    tx', k' := tx, k;
    for i := 0 to |SIX_CONTAINERS|
      invariant k' == k.(elements := FlushedAll(k.elements, SIX_CONTAINERS[..i]))
      invariant Run(k0, tx') == Some(k')
    {
      EveryContainer(SIX_CONTAINERS[i]);
      RunFlushContainer(k0, tx', k', SIX_CONTAINERS[i]);
      assert SIX_CONTAINERS[..i + 1][..i] == SIX_CONTAINERS[..i];
      tx' := tx' + [FlushContainer(SIX_CONTAINERS[i])];
      k' := k'.(elements := Flushed(k'.elements, SIX_CONTAINERS[i]));
    }
    assert SIX_CONTAINERS[..|SIX_CONTAINERS|] == SIX_CONTAINERS;
    NothingLeft(k.elements);
  }

  /**
   The six `nftElementStorage` objects in one: what each keeps under a key is kept here under the
   container and that key.
   */
  class NftElementStorage {
    var elements: map<Stored, ElementValue>
    var leftoverKeys: set<Stored>

    constructor ()
      ensures elements == map[] && leftoverKeys == {}
    {
      elements, leftoverKeys := map[], {};
    }

    /** Between syncs: the record is exact and every stored key is a candidate for deletion. */
    ghost predicate InSync(held: Elements)
      reads this
    {
      Pictures(elements, held) && leftoverKeys == elements.Keys
    }

    lemma SyncedRecord(held: Elements)
      requires Pictures(elements, held) && leftoverKeys == elements.Keys
      ensures InSync(held)
    {
    }

    /** In the middle of a sync that has written `es`: only keys no write named are left over. */
    ghost predicate Writing(held: Elements, es: seq<Element>)
      reads this
    {
      MidSync(elements, leftoverKeys, held, es)
    }

    /** `reset` of all six: forget everything and flush the containers. */
    method Reset(tx: seq<Op>, ghost k0: Kernel, ghost k: Kernel) returns (tx': seq<Op>, ghost k': Kernel)
      requires Run(k0, tx) == Some(k) && ALL_CONTAINERS <= k.containers
      modifies this
      ensures k' == k.(elements := map[])
      ensures Run(k0, tx') == Some(k.(elements := map[]))
      ensures InSync(map[])
    {
      elements, leftoverKeys := map[], {};
      tx', k' := FlushAll(tx, k0, k);
    }

    /** `ensureElem`: afterwards the slot holds the value; an emitted delete hits a present key. */
    method EnsureElem(e: Element, tx: seq<Op>, ghost k0: Kernel, ghost k: Kernel, ghost es: seq<Element>)
      returns (tx': seq<Op>, ghost k': Kernel)
      requires Run(k0, tx) == Some(k) && e.container in k.containers && Writing(k.elements, es)
      requires SpaceFreeKey(e.key) && (e.value.GotoChain? ==> e.value.chain in k.chains)
      modifies this
      ensures k' == k.(elements := k.elements[SlotOf(e) := e.value])
      ensures Run(k0, tx') == Some(k.(elements := k.elements[SlotOf(e) := e.value]))
      ensures Writing(k'.elements, es + [e])
    {
      var slot := SlotOf(e);
      var newKey := Store(slot);
      SpaceFreeStorable(slot);
      WritingSnoc(elements, leftoverKeys, k.elements, es, e);
      k' := k.(elements := k.elements[slot := e.value]);
      tx' := tx;
      if newKey in elements {
        if elements[newKey] != e.value {
          RunReplace(k0, tx, k, slot, e.value);
          tx' := tx + [DeleteElement(slot)] + [AddElement(slot, e.value)];
          elements := elements[newKey := e.value];
        } else {
          assert k.elements[slot := e.value] == k.elements;
        }
        leftoverKeys := leftoverKeys - {newKey};
      } else {
        RunAdd(k0, tx, k, slot, e.value);
        tx' := tx + [AddElement(slot, e.value)];
        elements := elements[newKey := e.value];
      }
    }

    /** `cleanupLeftoverKeys`: the containers end up exactly the last-write-wins maps of the writes. */
    method CleanupLeftoverKeys(tx: seq<Op>, ghost k0: Kernel, ghost k: Kernel, ghost held: Elements,
                               ghost es: seq<Element>)
      returns (tx': seq<Op>, ghost k': Kernel)
      requires Run(k0, tx) == Some(k) && k.elements == Puts(held, es) && Writing(k.elements, es)
      modifies this
      ensures k' == k.(elements := Puts(map[], es))
      ensures Run(k0, tx') == Some(k.(elements := Puts(map[], es)))
      ensures InSync(k'.elements)
    {
      LastWriteWins(held, es, elements);
      tx', k' := DeleteLeftovers(tx, k0, k);
    }

    /** The loop: every key still left over is deleted, and nothing else. */
    method DeleteLeftovers(tx: seq<Op>, ghost k0: Kernel, ghost k: Kernel) returns (tx': seq<Op>, ghost k': Kernel)
      requires Run(k0, tx) == Some(k) && Pictures(elements, k.elements) && leftoverKeys <= elements.Keys
      modifies this
      ensures k' == k.(elements := Without(k.elements, old(leftoverKeys)))
      ensures Run(k0, tx') == Some(k.(elements := Without(k.elements, old(leftoverKeys))))
      ensures InSync(k'.elements)
    {
      ghost var gone: set<Stored> := {};
      tx' := tx;
      var rest := leftoverKeys;
      assert Without(k.elements, gone) == k.elements;
      while rest != {}
        invariant rest + gone == leftoverKeys == old(leftoverKeys) && rest !! gone && rest <= elements.Keys
        invariant Run(k0, tx') == Some(k.(elements := Without(k.elements, gone)))
        invariant Pictures(elements, Without(k.elements, gone))
      {
        var t :| t in rest;
        CleanupStep(k0, tx', k, elements, gone, t);
        tx' := tx' + [DeleteElement(Restore(t))];
        elements := elements - {t};
        gone := gone + {t};
        rest := rest - {t};
      }
      assert gone == leftoverKeys;
      k' := k.(elements := Without(k.elements, gone));
      leftoverKeys := elements.Keys;
    }
  }
}
