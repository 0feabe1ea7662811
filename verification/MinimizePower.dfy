/** `PowerConsumptions2Scores` (minimizepower.go): watts to node scores, in place and in 64-bit arithmetic. */
module MinimizePower {
  import opened Integers

  const TWO64: int := 0x1_0000_0000_0000_0000

  const MAX_NODE_SCORE: int := 100
  const SCORE_BASE: int := 20
  const SCORE_ERROR: int := MAX64
  const SCORE_MAX: int := 0x3fff_ffff_ffff_ffff

  /** What stands for "an error occurred" and "overcommitted", and the scores these become. */
  const REPLACE: map<int, int> := map[SCORE_ERROR := 0, SCORE_MAX := 1]

  /** The int64 that an exact result becomes. */
  function Wrap(x: int): (r: int)
    ensures Int64(r) && (Int64(x) ==> r == x)
  {
    (x - MIN64) % TWO64 + MIN64
  }

  /** Division that truncates toward zero. */
  function Quot(a: int, b: int): int
    requires b != 0
  {
    if a >= 0 then (if b > 0 then a / b else -(a / -b)) else (if b > 0 then -(-a / b) else -a / -b)
  }

  datatype NodeScore = NodeScore(name: string, score: int)

  type Scores = seq<NodeScore>

  ghost predicate AllInt64(s: Scores) {
    forall i :: 0 <= i < |s| ==> Int64(s[i].score)
  }

  // ---- Specification ----

  /** The entries the map replaces, or those it does not. */
  function Part(s: Scores, replace: map<int, int>, replaced: bool): Scores {
    if s == [] then []
    else
      var init, last := s[..|s| - 1], s[|s| - 1];
      Part(init, replace, replaced)
      + (if (last.score in replace) != replaced
         then []
         else if replaced then [last.(score := replace[last.score])] else [last])
  }

  function Lowest(s: Scores): int {
    if s == [] then MAX64
    else
      var m, x := Lowest(s[..|s| - 1]), s[|s| - 1].score;
      if x < m then x else m
  }

  function Highest(s: Scores): int {
    if s == [] then MIN64
    else
      var m, x := Highest(s[..|s| - 1]), s[|s| - 1].score;
      if x > m then x else m
  }

  /** The score of a watt value between the extremes, every operation wrapping. */
  function Interpolate(base: int, lowest: int, highest: int, x: int): int
    requires Int64(lowest) && Int64(highest) && lowest < highest
  {
    WrapNonZero(highest - lowest);
    Wrap(MAX_NODE_SCORE - Quot(Wrap(Wrap(MAX_NODE_SCORE - base) * Wrap(x - lowest)), Wrap(highest - lowest)))
  }

  lemma WrapNonZero(x: int)
    requires 0 < x < TWO64
    ensures Wrap(x) != 0
  {
  }

  function NormalScore(base: int, lowest: int, highest: int, x: int): int
    requires Int64(lowest) && Int64(highest) && lowest <= highest
  {
    if highest != lowest then Interpolate(base, lowest, highest, x) else base
  }

  lemma {:induction false} Extremes(s: Scores)
    requires AllInt64(s)
    ensures Int64(Lowest(s)) && Int64(Highest(s))
    ensures s != [] ==> Lowest(s) <= Highest(s)
    ensures forall i :: 0 <= i < |s| ==> Lowest(s) <= s[i].score <= Highest(s)
    ensures s != [] ==>
              (exists i :: 0 <= i < |s| && s[i].score == Lowest(s))
              && (exists i :: 0 <= i < |s| && s[i].score == Highest(s))
  {
    if s != [] {
      var init := s[..|s| - 1];
      Extremes(init);
      assert forall i :: 0 <= i < |init| ==> init[i] == s[i];
      assert s[|s| - 1].score <= MAX64 && s[|s| - 1].score >= MIN64;
      if init != [] {
        var i :| 0 <= i < |init| && init[i].score == Lowest(init);
        var j :| 0 <= j < |init| && init[j].score == Highest(init);
        assert s[i].score == Lowest(init) && s[j].score == Highest(init);
      }
    }
  }

  function Normalized(base: int, calculated: Scores): Scores
    requires AllInt64(calculated)
  {
    Extremes(calculated);
    seq(|calculated|, i requires 0 <= i < |calculated| =>
      calculated[i].(score := NormalScore(base, Lowest(calculated), Highest(calculated), calculated[i].score)))
  }

  /** Entries by name, later ones replacing earlier ones. */
  function ByName(start: map<string, NodeScore>, s: Scores): map<string, NodeScore> {
    if s == [] then start else ByName(start, s[..|s| - 1])[s[|s| - 1].name := s[|s| - 1]]
  }

  lemma {:induction false} PartInt64(s: Scores, replace: map<int, int>)
    requires AllInt64(s)
    ensures AllInt64(Part(s, replace, false))
  {
    if s != [] {
      PartInt64(s[..|s| - 1], replace);
    }
  }

  /** The list everything ends up in, by name. */
  function Table(s: Scores, base: int, replace: map<int, int>): map<string, NodeScore>
    requires AllInt64(s)
  {
    PartInt64(s, replace);
    ByName(ByName(map[], Part(s, replace, true)), Normalized(base, Part(s, replace, false)))
  }

  lemma {:induction false} ByNameHas(start: map<string, NodeScore>, s: Scores, name: string)
    ensures name in ByName(start, s) <==> name in start || exists i :: 0 <= i < |s| && s[i].name == name
  {
    if s != [] {
      var init := s[..|s| - 1];
      ByNameHas(start, init, name);
      assert forall i :: 0 <= i < |init| ==> init[i] == s[i];
    }
  }

  /** Every entry lands in one of the two parts. */
  lemma {:induction false} PartHas(s: Scores, replace: map<int, int>, k: nat)
    requires k < |s|
    ensures var replaced := s[k].score in replace;
            exists i :: 0 <= i < |Part(s, replace, replaced)| && Part(s, replace, replaced)[i].name == s[k].name
    ensures s[k].score !in replace ==> s[k] in Part(s, replace, false)
    ensures s[k].score in replace ==> s[k].(score := replace[s[k].score]) in Part(s, replace, true)
  {
    var init, replaced := s[..|s| - 1], s[k].score in replace;
    var part, before := Part(s, replace, replaced), Part(init, replace, replaced);
    if k < |s| - 1 {
      PartHas(init, replace, k);
      var i :| 0 <= i < |before| && before[i].name == s[k].name;
      assert part[i] == before[i];
    } else {
      assert part[|part| - 1].name == s[k].name;
    }
  }

  lemma TableHas(s: Scores, base: int, replace: map<int, int>, k: nat)
    requires AllInt64(s) && k < |s|
    ensures s[k].name in Table(s, base, replace)
  {
    hide Part, ByName, Lowest, Highest, NormalScore;
    PartInt64(s, replace);
    PartHas(s, replace, k);
    var c := Normalized(base, Part(s, replace, false));
    ByNameHas(map[], Part(s, replace, true), s[k].name);
    ByNameHas(ByName(map[], Part(s, replace, true)), c, s[k].name);
    if s[k].score !in replace {
      var i :| 0 <= i < |c| && Part(s, replace, false)[i].name == s[k].name;
      assert c[i].name == s[k].name;
    }
  }

  function Converted(s: Scores, base: int, replace: map<int, int>): (r: Scores)
    requires AllInt64(s)
    ensures |r| == |s|
  {
    seq(|s|, i requires 0 <= i < |s| => TableHas(s, base, replace, i); Table(s, base, replace)[s[i].name])
  }

  lemma ConvertedIs(s: Scores, base: int, replace: map<int, int>, k: nat)
    requires AllInt64(s) && k < |s|
    ensures s[k].name in Table(s, base, replace) && Converted(s, base, replace)[k] == Table(s, base, replace)[s[k].name]
  {
    hide Table;
    TableHas(s, base, replace, k);
  }

  lemma TableIs(s: Scores, base: int, replace: map<int, int>)
    requires AllInt64(s)
    ensures AllInt64(Part(s, replace, false))
    ensures Table(s, base, replace) ==
              ByName(ByName(map[], Part(s, replace, true)), Normalized(base, Part(s, replace, false)))
  {
    hide Part, ByName, Normalized;
    PartInt64(s, replace);
  }

  // ---- The code ----

  method Partition(s: Scores, replace: map<int, int>) returns (replaced: Scores, calculated: Scores)
    ensures replaced == Part(s, replace, true) && calculated == Part(s, replace, false)
  {
    replaced, calculated := [], [];
    for i := 0 to |s|
      invariant replaced == Part(s[..i], replace, true) && calculated == Part(s[..i], replace, false)
    {
      assert s[..i + 1][..i] == s[..i];
      if s[i].score in replace {
        replaced := replaced + [NodeScore(s[i].name, replace[s[i].score])];
      } else {
        calculated := calculated + [NodeScore(s[i].name, s[i].score)];
      }
    }
    assert s[..|s|] == s;
  }

  method Normalize(calculated: Scores, base: int) returns (r: Scores)
    requires AllInt64(calculated)
    ensures r == Normalized(base, calculated)
  {
    var highest, lowest := MIN64, MAX64;
    for i := 0 to |calculated|
      invariant highest == Highest(calculated[..i]) && lowest == Lowest(calculated[..i])
    {
      assert calculated[..i + 1][..i] == calculated[..i];
      if calculated[i].score > highest {
        highest := calculated[i].score;
      }
      if calculated[i].score < lowest {
        lowest := calculated[i].score;
      }
    }
    assert calculated[..|calculated|] == calculated;
    Extremes(calculated);
    r := calculated;
    for i := 0 to |calculated|
      invariant |r| == |calculated|
      invariant forall j :: 0 <= j < i ==>
                  r[j] == calculated[j].(score := NormalScore(base, lowest, highest, calculated[j].score))
      invariant forall j :: i <= j < |r| ==> r[j] == calculated[j]
    {
      var x := if highest != lowest then Interpolate(base, lowest, highest, calculated[i].score) else base;
      r := r[i := r[i].(score := x)];
    }
  }

  method Collect(start: map<string, NodeScore>, s: Scores) returns (m: map<string, NodeScore>)
    ensures m == ByName(start, s)
  {
    m := start;
    for i := 0 to |s|
      invariant m == ByName(start, s[..i])
    {
      assert s[..i + 1][..i] == s[..i];
      m := m[s[i].name := s[i]];
    }
    assert s[..|s|] == s;
  }

  method PowerConsumptions2Scores(scores: array<NodeScore>, base: int, replace: map<int, int>)
    requires AllInt64(scores[..])
    modifies scores
    ensures scores[..] == Converted(old(scores[..]), base, replace)
  {
    hide Part, ByName, Normalized, Table, Converted;
    ghost var s := scores[..];
    TableIs(s, base, replace);
    var replaced, calculated := Partition(scores[..], replace);
    calculated := Normalize(calculated, base);
    var scores2 := Collect(map[], replaced);
    scores2 := Collect(scores2, calculated);
    for i := 0 to scores.Length
      invariant forall j :: 0 <= j < i ==> scores[j] == Converted(s, base, replace)[j]
      invariant forall j :: i <= j < scores.Length ==> scores[j] == s[j]
    {
      ConvertedIs(s, base, replace, i);
      scores[i] := scores2[scores[i].name];
    }
  }

  // ---- What it means for uniquely named nodes ----

  ghost predicate UniqueNames(s: Scores) {
    forall i, j :: 0 <= i < j < |s| ==> s[i].name != s[j].name
  }

  lemma {:induction false} PartFrom(s: Scores, replace: map<int, int>, replaced: bool, x: NodeScore)
    requires x in Part(s, replace, replaced)
    ensures exists k ::
              0 <= k < |s| && s[k].name == x.name && (s[k].score in replace) == replaced && (!replaced ==> s[k] == x)
                        && (replaced ==> x.score == replace[s[k].score])
  {
    var init := s[..|s| - 1];
    if x in Part(init, replace, replaced) {
      PartFrom(init, replace, replaced, x);
      var k :| 0 <= k < |init| && init[k].name == x.name && (init[k].score in replace) == replaced && (!replaced ==>
                                                               init[k] == x)
               && (replaced ==> x.score == replace[init[k].score]);
      assert s[k] == init[k];
    } else {
      assert s[|s| - 1].name == x.name;
    }
  }

  lemma {:induction false} ByNameAt(start: map<string, NodeScore>, s: Scores, name: string, want: NodeScore)
    requires forall i :: 0 <= i < |s| && s[i].name == name ==> s[i] == want
    requires (exists i :: 0 <= i < |s| && s[i].name == name) || (name in start && start[name] == want)
    ensures name in ByName(start, s) && ByName(start, s)[name] == want
  {
    if s != [] {
      var init := s[..|s| - 1];
      assert forall i :: 0 <= i < |init| ==> init[i] == s[i];
      if s[|s| - 1].name != name {
        if i :| 0 <= i < |s| && s[i].name == name {
          assert init[i].name == name;
        }
        ByNameAt(start, init, name, want);
      }
    }
  }

  /** Names and positions are kept, and every node gets the score of its own watts. */
  lemma ConvertedAt(s: Scores, base: int, replace: map<int, int>, k: nat)
    requires AllInt64(s) && UniqueNames(s) && k < |s|
    ensures Converted(s, base, replace)[k].name == s[k].name
    ensures s[k].score in replace ==> Converted(s, base, replace)[k].score == replace[s[k].score]
    ensures s[k].score !in replace ==>
              var c := Part(s, replace, false);
              && Int64(Lowest(c)) && Int64(Highest(c)) && Lowest(c) <= s[k].score <= Highest(c)
              && Converted(s, base, replace)[k].score == NormalScore(base, Lowest(c), Highest(c), s[k].score)
  {
    hide Part, ByName, Table, Converted, Lowest, Highest, NormalScore;
    var name, r, c := s[k].name, Part(s, replace, true), Part(s, replace, false);
    TableIs(s, base, replace);
    ConvertedIs(s, base, replace, k);
    Extremes(c);
    PartHas(s, replace, k);
    var n := Normalized(base, c);
    var first := ByName(map[], r);
    if s[k].score in replace {
      OwnReplaced(s, replace, k);
      var want := s[k].(score := replace[s[k].score]);
      ByNameAt(map[], r, name, want);
      NotCalculated(s, replace, k);
      ByNameAt(first, n, name, want);
    } else {
      OwnCalculated(s, replace, k);
      var i :| 0 <= i < |c| && c[i] == s[k];
      assert n[i].name == name;
      ByNameAt(first, n, name, n[i]);
    }
  }

  lemma OwnReplaced(s: Scores, replace: map<int, int>, k: nat)
    requires UniqueNames(s) && k < |s| && s[k].score in replace
    ensures forall i :: 0 <= i < |Part(s, replace, true)| && Part(s, replace, true)[i].name == s[k].name ==>
              Part(s, replace, true)[i] == s[k].(score := replace[s[k].score])
  {
    var r := Part(s, replace, true);
    forall i | 0 <= i < |r| && r[i].name == s[k].name
      ensures r[i] == s[k].(score := replace[s[k].score])
    {
      PartFrom(s, replace, true, r[i]);
    }
  }

  lemma NotCalculated(s: Scores, replace: map<int, int>, k: nat)
    requires UniqueNames(s) && k < |s| && s[k].score in replace
    ensures forall i :: 0 <= i < |Part(s, replace, false)| ==> Part(s, replace, false)[i].name != s[k].name
  {
    var c := Part(s, replace, false);
    forall i | 0 <= i < |c|
      ensures c[i].name != s[k].name
    {
      PartFrom(s, replace, false, c[i]);
    }
  }

  lemma OwnCalculated(s: Scores, replace: map<int, int>, k: nat)
    requires UniqueNames(s) && k < |s| && s[k].score !in replace
    ensures forall i :: 0 <= i < |Part(s, replace, false)| && Part(s, replace, false)[i].name == s[k].name ==>
              Part(s, replace, false)[i] == s[k]
  {
    var c := Part(s, replace, false);
    forall i | 0 <= i < |c| && c[i].name == s[k].name
      ensures c[i] == s[k]
    {
      PartFrom(s, replace, false, c[i]);
    }
  }

  // ---- Arithmetic ----

  const SPREAD: int := MAX_NODE_SCORE - SCORE_BASE

  /** The intermediate results for a watt value are representable. */
  predicate Fits(lowest: int, x: int) {
    Int64(x - lowest) && Int64(SPREAD * (x - lowest))
  }

  /** They are for every value between the extremes exactly when the spread of the watts is at most MaxInt64 / 80. */
  lemma NoOverflowIff(lowest: int, highest: int)
    requires Int64(lowest) && Int64(highest) && lowest <= highest
    ensures (forall x :: lowest <= x <= highest ==> Fits(lowest, x)) <==> highest - lowest <= MAX64 / SPREAD
  {
    if highest - lowest > MAX64 / SPREAD {
      assert !Fits(lowest, highest);
    }
  }

  /** Without overflow the formula is exact. */
  lemma InterpolateExact(lowest: int, highest: int, x: int)
    requires Int64(lowest) && Int64(highest) && lowest < highest && lowest <= x <= highest
    requires highest - lowest <= MAX64 / SPREAD
    ensures 0 <= SPREAD * (x - lowest) / (highest - lowest) <= SPREAD
    ensures Interpolate(SCORE_BASE, lowest, highest, x) == MAX_NODE_SCORE - SPREAD * (x - lowest) / (highest - lowest)
  {
    var y, d := x - lowest, highest - lowest;
    QuotientBounds(SPREAD * y, d, SPREAD);
    assert Wrap(y) == y && Wrap(d) == d && Wrap(SPREAD * y) == SPREAD * y;
  }

  lemma QuotientBounds(a: int, d: int, bound: int)
    requires d > 0 && 0 <= a <= bound * d
    ensures 0 <= a / d <= bound
    ensures a == bound * d ==> a / d == bound
    ensures a == 0 ==> a / d == 0
  {
    var q := a / d;
    assert a == d * q + a % d;
    Multiples(d, q, bound);
  }

  lemma Multiples(d: int, q: int, bound: int)
    requires d > 0
    ensures q > bound ==> d * q >= d * bound + d
    ensures q < bound ==> d * q + d <= d * bound
    ensures q < 0 ==> d * q + d <= 0
  {
    assert d * (q - bound) == d * q - d * bound;
    if q > bound {
      AtLeastOnce(d, q - bound);
    } else if q < bound {
      AtLeastOnce(d, bound - q);
      assert d * (bound - q) == -(d * (q - bound));
    }
    if q < 0 {
      AtLeastOnce(d, -q);
      assert d * -q == -(d * q);
    }
  }

  lemma {:induction false} AtLeastOnce(d: int, k: int)
    requires d > 0 && k >= 1
    ensures d * k >= d
    decreases k
  {
    if k > 1 {
      AtLeastOnce(d, k - 1);
      assert d * k == d * (k - 1) + d;
    }
  }

  lemma QuotientMonotone(a: int, b: int, d: int)
    requires d > 0 && a <= b
    ensures a / d <= b / d
  {
    var p, q := a / d, b / d;
    assert a == d * p + a % d && b == d * q + b % d;
    Multiples(d, p, q);
  }

  /** The watts were calculated: neither an error nor an overcommitted node. */
  ghost predicate Calculated(score: int) { score != MAX64 && score != MAX64 / 2 }

  /**
   What the default configuration promises of the scores: errors get 0, overcommitted nodes 1, the
   rest at least 20.
   */
  ghost predicate WellScored(s: Scores, r: Scores)
    requires |r| == |s|
  {
    && (forall k :: 0 <= k < |s| ==> r[k].name == s[k].name)
    && (forall k :: 0 <= k < |s| && Calculated(s[k].score) ==> 20 <= r[k].score <= 100)
    && (forall k :: 0 <= k < |s| && s[k].score == MAX64 ==> r[k].score == 0)
    && (forall k :: 0 <= k < |s| && s[k].score == MAX64 / 2 ==> r[k].score == 1)
    && (forall j, k ::
          0 <= j < |s| && 0 <= k < |s| && Calculated(s[j].score) && Calculated(s[k].score)
          && s[j].score <= s[k].score ==>
          r[j].score >= r[k].score)
  }

  ghost predicate SmallSpread(s: Scores) {
    forall j, k :: 0 <= j < |s| && 0 <= k < |s| && s[j].score !in REPLACE && s[k].score !in REPLACE ==>
      s[k].score - s[j].score <= MAX64 / SPREAD
  }

  /** The extremes of the calculated scores are scores of nodes of the list. */
  lemma ExtremesListed(s: Scores)
    requires AllInt64(s) && Part(s, REPLACE, false) != []
    ensures var c := Part(s, REPLACE, false);
            && (exists k :: 0 <= k < |s| && s[k].score !in REPLACE && s[k].score == Lowest(c))
            && (exists k :: 0 <= k < |s| && s[k].score !in REPLACE && s[k].score == Highest(c))
  {
    hide Part, Lowest, Highest;
    var c := Part(s, REPLACE, false);
    PartInt64(s, REPLACE);
    Extremes(c);
    var i :| 0 <= i < |c| && c[i].score == Lowest(c);
    var j :| 0 <= j < |c| && c[j].score == Highest(c);
    PartFrom(s, REPLACE, false, c[i]);
    PartFrom(s, REPLACE, false, c[j]);
  }

  /** The spread is small exactly if the extremes are close. */
  lemma CalculatedSpread(s: Scores)
    requires AllInt64(s) && Part(s, REPLACE, false) != []
    ensures var c := Part(s, REPLACE, false); SmallSpread(s) <==> Highest(c) - Lowest(c) <= MAX64 / SPREAD
  {
    hide Part, Lowest, Highest;
    var c := Part(s, REPLACE, false);
    ExtremesListed(s);
    PartInt64(s, REPLACE);
    Extremes(c);
    forall k | 0 <= k < |s| && s[k].score !in REPLACE
      ensures Lowest(c) <= s[k].score <= Highest(c)
    {
      PartHas(s, REPLACE, k);
    }
  }

  /** The score of one calculated node. */
  lemma OneScore(s: Scores, k: nat)
    requires AllInt64(s) && UniqueNames(s) && SmallSpread(s) && k < |s| && s[k].score !in REPLACE
    ensures var c, r := Part(s, REPLACE, false), Converted(s, SCORE_BASE, REPLACE);
            && Lowest(c) <= s[k].score <= Highest(c)
            && SCORE_BASE <= r[k].score <= MAX_NODE_SCORE
            && (Lowest(c) == Highest(c) ==> r[k].score == SCORE_BASE)
            && (Lowest(c) < Highest(c) ==>
                  r[k].score == MAX_NODE_SCORE - SPREAD * (s[k].score - Lowest(c)) / (Highest(c) - Lowest(c)))
  {
    hide Part, Lowest, Highest, Interpolate, Converted, SmallSpread, UniqueNames, AllInt64;
    var c := Part(s, REPLACE, false);
    PartHas(s, REPLACE, k);
    CalculatedSpread(s);
    ConvertedAt(s, SCORE_BASE, REPLACE, k);
    if Lowest(c) < Highest(c) {
      InterpolateExact(Lowest(c), Highest(c), s[k].score);
    }
  }

  /** In range, antitone in the watts, and every error or overcommitted node strictly below every calculated one. */
  lemma ScoresAreSound(s: Scores)
    requires AllInt64(s) && UniqueNames(s) && SmallSpread(s)
    ensures WellScored(s, Converted(s, SCORE_BASE, REPLACE))
  {
    hide Part, Lowest, Highest, Interpolate, NormalScore, Converted;
    var r := Converted(s, SCORE_BASE, REPLACE);
    forall k | 0 <= k < |s|
      ensures r[k].name == s[k].name
      ensures Calculated(s[k].score) <==> s[k].score !in REPLACE
      ensures Calculated(s[k].score) ==> 20 <= r[k].score <= 100
      ensures s[k].score == MAX64 ==> r[k].score == 0
      ensures s[k].score == MAX64 / 2 ==> r[k].score == 1
    {
      ConvertedAt(s, SCORE_BASE, REPLACE, k);
      if s[k].score !in REPLACE {
        OneScore(s, k);
      }
    }
    forall j, k |
      && 0 <= j < |s| && 0 <= k < |s|
      && s[j].score !in REPLACE && s[k].score !in REPLACE && s[j].score <= s[k].score
      ensures r[j].score >= r[k].score
    {
      Antitone(s, j, k);
    }
  }

  lemma Antitone(s: Scores, j: nat, k: nat)
    requires AllInt64(s) && UniqueNames(s) && SmallSpread(s) && j < |s| && k < |s|
    requires s[j].score !in REPLACE && s[k].score !in REPLACE && s[j].score <= s[k].score
    ensures Converted(s, SCORE_BASE, REPLACE)[j].score >= Converted(s, SCORE_BASE, REPLACE)[k].score
  {
    hide Part, Lowest, Highest, Converted;
    var c := Part(s, REPLACE, false);
    OneScore(s, j);
    OneScore(s, k);
    if Lowest(c) < Highest(c) {
      QuotientMonotone(SPREAD * (s[j].score - Lowest(c)), SPREAD * (s[k].score - Lowest(c)), Highest(c) - Lowest(c));
    }
  }

  /**
   With unequal watts the lowest gets exactly the best score and the highest exactly the base; with
   equal watts all get the base.
   */
  lemma ExtremeScores(s: Scores, k: nat)
    requires AllInt64(s) && UniqueNames(s) && SmallSpread(s) && k < |s| && s[k].score !in REPLACE
    ensures var r := Converted(s, SCORE_BASE, REPLACE);
            var least := forall j :: 0 <= j < |s| && s[j].score !in REPLACE ==> s[k].score <= s[j].score;
            var most := forall j :: 0 <= j < |s| && s[j].score !in REPLACE ==> s[j].score <= s[k].score;
            && (least && !most ==> r[k].score == MAX_NODE_SCORE)
            && (most ==> r[k].score == SCORE_BASE)
  {
    hide Part, Lowest, Highest, Converted;
    var c := Part(s, REPLACE, false);
    PartHas(s, REPLACE, k);
    ExtremesListed(s);
    OneScore(s, k);
    forall j | 0 <= j < |s| && s[j].score !in REPLACE
      ensures Lowest(c) <= s[j].score <= Highest(c)
    {
      OneScore(s, j);
    }
    if Lowest(c) < Highest(c) {
      QuotientBounds(SPREAD * (s[k].score - Lowest(c)), Highest(c) - Lowest(c), SPREAD);
    }
  }

  /** For non-negative watts the highest gets the base score exactly when no product leaves int64. */
  lemma HighestScoreIff(lowest: int, highest: int)
    requires 0 <= lowest < highest <= MAX64
    ensures Interpolate(SCORE_BASE, lowest, highest, highest) == SCORE_BASE <==> highest - lowest <= MAX64 / SPREAD
  {
    var d := highest - lowest;
    if d <= MAX64 / SPREAD {
      InterpolateExact(lowest, highest, highest);
      QuotientBounds(SPREAD * d, d, SPREAD);
    } else {
      var p := Wrap(SPREAD * d);
      WrapBelow(SPREAD * d);
      assert SPREAD * d == d * SPREAD;
      if p >= 0 {
        BelowMultiple(p, d, SPREAD);
      } else {
        QuotientBounds(-p, d, SPREAD);
      }
      assert Wrap(SPREAD) == SPREAD && Wrap(d) == d;
    }
  }

  lemma WrapBelow(x: int)
    requires x > MAX64
    ensures Wrap(x) <= x - TWO64
  {
  }

  lemma BelowMultiple(a: int, d: int, bound: int)
    requires d > 0 && 0 <= a < bound * d
    ensures 0 <= a / d < bound
  {
    QuotientBounds(a, d, bound);
    var q := a / d;
    assert a == d * q + a % d;
    assert q == bound ==> d * q == bound * d;
  }

  /**
   For uniquely named nodes with non-negative watts: the dearest node gets the base score exactly when
   the spread is at most MaxInt64 / 80.
   */
  lemma DearestGetsBaseIff(s: Scores, k: nat)
    requires AllInt64(s) && UniqueNames(s) && k < |s| && s[k].score !in REPLACE
    requires forall j :: 0 <= j < |s| && s[j].score !in REPLACE ==> 0 <= s[j].score <= s[k].score
    ensures Converted(s, SCORE_BASE, REPLACE)[k].score == SCORE_BASE <==> SmallSpread(s)
  {
    hide Part, Lowest, Highest, Interpolate, Converted, SmallSpread, AllInt64, UniqueNames;
    var c := Part(s, REPLACE, false);
    PartHas(s, REPLACE, k);
    ExtremesListed(s);
    CalculatedSpread(s);
    ConvertedAt(s, SCORE_BASE, REPLACE, k);
    assert Highest(c) == s[k].score;
    if Lowest(c) < Highest(c) {
      HighestScoreIff(Lowest(c), Highest(c));
    }
  }

  const TOO_WIDE: Scores := [NodeScore("cheap", 0), NodeScore("dear", 0x200_0000_0000_0000)]

  lemma TooWideParts()
    ensures Part(TOO_WIDE, REPLACE, false) == TOO_WIDE && Lowest(TOO_WIDE) == 0
    ensures Highest(TOO_WIDE) == 0x200_0000_0000_0000
  {
    var a, b := TOO_WIDE[0], TOO_WIDE[1];
    assert TOO_WIDE[..1] == [a] && [a][..0] == [];
    assert Part([], REPLACE, false) == [] && Part([a], REPLACE, false) == [a];
    assert Lowest([a]) == 0 && Highest([a]) == 0;
  }

  lemma TooWideScores()
    ensures NormalScore(SCORE_BASE, 0, 0x200_0000_0000_0000, 0) == 100
    ensures NormalScore(SCORE_BASE, 0, 0x200_0000_0000_0000, 0x200_0000_0000_0000) == 148
  {
    var d := 0x200_0000_0000_0000;
    assert Wrap(SPREAD * d) == SPREAD * d - TWO64;
    assert Quot(SPREAD * d - TWO64, d) == -48;
    assert Wrap(SPREAD * 0) == 0;
  }

  lemma TooWideIsLegal()
    ensures AllInt64(TOO_WIDE) && UniqueNames(TOO_WIDE) && !SmallSpread(TOO_WIDE)
  {
    assert "cheap" != "dear" by { assert |"cheap"| != |"dear"|; }
    assert TOO_WIDE[0].score !in REPLACE && TOO_WIDE[1].score !in REPLACE;
    assert TOO_WIDE[1].score - TOO_WIDE[0].score > MAX64 / SPREAD;
  }

  /** Beyond the allowed spread the product wraps around: here the dearest node comes out best. */
  lemma SpreadTooLarge()
    ensures AllInt64(TOO_WIDE) && UniqueNames(TOO_WIDE) && !SmallSpread(TOO_WIDE)
    ensures Converted(TOO_WIDE, SCORE_BASE, REPLACE) == [NodeScore("cheap", 100), NodeScore("dear", 148)]
  {
    hide Part, Lowest, Highest, Converted, NormalScore, AllInt64, UniqueNames, SmallSpread;
    TooWideIsLegal();
    TooWideParts();
    TooWideScores();
    ConvertedAt(TOO_WIDE, SCORE_BASE, REPLACE, 0);
    ConvertedAt(TOO_WIDE, SCORE_BASE, REPLACE, 1);
  }
}
