/** WAO weights (nftables/wao.go): from watts to scores, and what the weighted dispatch makes of them. */
module Weights {
  import opened Integers
  import opened ProxyTypes
  import opened Nftables
  import opened RuleCompiler

  // ---- normalizeScores ----

  const SCORE_MIN: int := 0
  const SCORE_MAX: int := 100

  /** Adding one to an int64. */
  function Succ64(x: int): int {
    if x == MAX64 then MIN64 else x + 1
  }

  function Abs(x: int): nat { if x < 0 then -x else x }

  /** `math.Round` of a fraction, in exact arithmetic: halves go away from zero. */
  function RoundFraction(a: int, b: int): int
    requires b != 0
  {
    var q := (2 * Abs(a) + Abs(b)) / (2 * Abs(b));
    if (a < 0) == (b < 0) then q else -q
  }

  function Clamp(x: int): int {
    if x < SCORE_MIN then SCORE_MIN else if x > SCORE_MAX then SCORE_MAX else x
  }

  function ScoreFor(least: int, w: int): int
    requires w != 0
  {
    Clamp(RoundFraction(SCORE_MAX * least, w))
  }

  type Watts = map<string, int>

  predicate Scored(watts: Watts, ip: string) {
    ip in watts && watts[ip] >= 0
  }

  /** The least of the shifted watts. */
  ghost predicate IsLeast(watts: Watts, m: int) {
    && (exists ip :: Scored(watts, ip) && Succ64(watts[ip]) == m)
    && (forall ip :: Scored(watts, ip) ==> m <= Succ64(watts[ip]))
  }

  /** The score map is the one the formula asks for. */
  ghost predicate Normalizes(watts: Watts, scores: ScoreMap) {
    && (forall ip :: ip in scores <==> Scored(watts, ip))
    && (forall ip, m :: ip in scores && IsLeast(watts, m) ==> scores[ip] == ScoreFor(m, Succ64(watts[ip])))
  }

  method ShiftWatts(watts: Watts) returns (watts2: Watts)
    ensures forall ip :: ip in watts2 <==> Scored(watts, ip)
    ensures forall ip :: ip in watts2 ==> ip in watts && watts2[ip] == Succ64(watts[ip])
  {
    watts2 := map[];
    var rest := watts.Keys;
    while rest != {}
      invariant rest <= watts.Keys
      invariant forall ip :: ip in watts2 <==> Scored(watts, ip) && ip !in rest
      invariant forall ip :: ip in watts2 ==> ip in watts && watts2[ip] == Succ64(watts[ip])
    {
      var ip :| ip in rest;
      rest := rest - {ip};
      if watts[ip] >= 0 {
        watts2 := watts2[ip := Succ64(watts[ip])];
      }
    }
  }

  method LeastOf(watts: Watts) returns (least: int)
    requires forall ip :: ip in watts ==> Int64(watts[ip])
    ensures watts == map[] ==> least == MAX64
    ensures watts != map[] ==> exists ip :: ip in watts && watts[ip] == least
    ensures forall ip :: ip in watts ==> least <= watts[ip]
  {
    least := MAX64;
    var rest := watts.Keys;
    while rest != {}
      invariant rest <= watts.Keys
      invariant forall ip :: ip in watts && ip !in rest ==> least <= watts[ip]
      invariant least == MAX64 || exists ip :: ip in watts && watts[ip] == least
    {
      var ip :| ip in rest;
      rest := rest - {ip};
      if watts[ip] < least {
        least := watts[ip];
      }
    }
    if watts != map[] && least == MAX64 {
      var ip :| ip in watts;
      assert watts[ip] == least;
    }
  }

  method NormalizeScores(watts: Watts) returns (scores: ScoreMap)
    requires forall ip :: ip in watts ==> Int64(watts[ip])
    ensures Normalizes(watts, scores)
  {
    var watts2 := ShiftWatts(watts);
    var least := LeastOf(watts2);
    scores := map[];
    var rest := watts2.Keys;
    while rest != {}
      invariant rest <= watts2.Keys
      invariant forall ip :: ip in scores <==> ip in watts2 && ip !in rest
      invariant forall ip :: ip in scores ==> scores[ip] == ScoreFor(least, watts2[ip])
    {
      hide ScoreFor;
      var ip :| ip in rest;
      rest := rest - {ip};
      scores := scores[ip := ScoreFor(least, watts2[ip])];
    }
    forall ip, m | ip in scores && IsLeast(watts, m)
      ensures scores[ip] == ScoreFor(m, Succ64(watts[ip]))
    {
      assert m == least;
    }
  }

  lemma LeastExists(watts: Watts, ip: string)
    requires Scored(watts, ip) && forall x :: x in watts ==> Int64(watts[x])
    ensures exists m :: IsLeast(watts, m)
    decreases Succ64(watts[ip]) - MIN64
  {
    if !IsLeast(watts, Succ64(watts[ip])) {
      var other :| Scored(watts, other) && Succ64(watts[other]) < Succ64(watts[ip]);
      LeastExists(watts, other);
    }
  }

  /** The rounded quotient of positive numbers is bracketed by its definition. */
  lemma RoundedBetween(m: int, w: int) returns (q: int, t: int)
    requires 0 < m && 0 < w
    ensures q == RoundFraction(SCORE_MAX * m, w) && q >= 0 && t == w * q
    ensures 2 * t <= 2 * SCORE_MAX * m + w < 2 * t + 2 * w
  {
    var x, d := 200 * m + w, 2 * w;
    q := x / d;
    t := w * q;
    assert x == d * q + x % d;
    assert d * q == 2 * t;
  }

  lemma Scaled(w: int, q: int, bound: int)
    requires w > 0
    ensures q <= bound ==> w * q <= w * bound
    ensures q >= bound ==> w * q >= w * bound
  {
  }

  /** The formula on positive watts: within one half of the exact quotient, and the two extremes. */
  lemma PositiveScore(m: int, w: int)
    requires 0 < m <= w
    ensures SCORE_MIN <= ScoreFor(m, w) <= SCORE_MAX
    ensures -w <= 2 * (w * ScoreFor(m, w)) - 2 * SCORE_MAX * m <= w
    ensures m == w ==> ScoreFor(m, w) == SCORE_MAX
    ensures ScoreFor(m, w) == 0 <==> w > 2 * SCORE_MAX * m
  {
    var q, t := RoundedBetween(m, w);
    hide RoundFraction;
    Scaled(w, q, 101);
    Scaled(w, q, 99);
    Scaled(w, q, 1);
    assert ScoreFor(m, w) == q;
  }

  lemma ScoreAntitone(m: int, v: int, w: int)
    requires 0 < m <= v <= w
    ensures ScoreFor(m, v) >= ScoreFor(m, w)
  {
    var qv, tv := RoundedBetween(m, v);
    var qw, tw := RoundedBetween(m, w);
    hide RoundFraction;
    if qw > qv {
      Scaled(w, qw, qv + 1);
      NonDecreasing(v, w, qv);
      assert false;
    }
  }

  lemma NonDecreasing(v: int, w: int, q: int)
    requires 0 < v <= w && 0 <= q
    ensures v * q + w <= w * (q + 1)
  {
  }

  // ---- What the scores promise, and exactly when they keep it ----

  /** The least of the shifted watts as numbers, without wrap-around. */
  ghost predicate TrueLeast(watts: Watts, m: int) {
    && (exists ip :: Scored(watts, ip) && watts[ip] + 1 == m)
    && (forall ip :: Scored(watts, ip) ==> m <= watts[ip] + 1)
  }

  /** The largest int64 stands beside a smaller watt value: there the shift wraps around. */
  ghost predicate Mixed(watts: Watts) {
    exists big, small :: Scored(watts, big) && watts[big] == MAX64 && Scored(watts, small) && watts[small] != MAX64
  }

  /** Every score lies within one half of 100 min / w. */
  ghost predicate WithinHalf(watts: Watts, scores: ScoreMap, m: int)
    requires scores.Keys <= watts.Keys
  {
    forall ip :: ip in scores ==> var w := watts[ip] + 1; -w <= 2 * (w * scores[ip]) - 200 * m <= w
  }

  /** Every cheapest endpoint gets exactly 100. */
  ghost predicate CheapestFull(watts: Watts, scores: ScoreMap, m: int)
    requires scores.Keys <= watts.Keys
  {
    forall ip :: ip in scores && watts[ip] + 1 == m ==> scores[ip] == 100
  }

  /** A score is zero exactly when the shifted watt exceeds 200 times the least. */
  ghost predicate ZeroWhenDear(watts: Watts, scores: ScoreMap, m: int)
    requires scores.Keys <= watts.Keys
  {
    forall ip :: ip in scores ==> (scores[ip] == 0 <==> watts[ip] + 1 > 200 * m)
  }

  /** Cheaper endpoints are never scored below dearer ones. */
  ghost predicate Antitone(watts: Watts, scores: ScoreMap)
    requires scores.Keys <= watts.Keys
  {
    forall a, b :: a in scores && b in scores && watts[a] <= watts[b] ==> scores[a] >= scores[b]
  }

  /** The scored keys and the range of scores, for every watt map. */
  lemma ScoreRange(watts: Watts, scores: ScoreMap)
    requires Normalizes(watts, scores) && forall ip :: ip in watts ==> Int64(watts[ip])
    ensures forall ip :: ip in scores <==> ip in watts && watts[ip] >= 0
    ensures forall ip :: ip in scores ==> 0 <= scores[ip] <= 100
  {
    hide RoundFraction;
    forall ip | ip in scores
      ensures 0 <= scores[ip] <= 100
    {
      LeastExists(watts, ip);
      var m :| IsLeast(watts, m);
      assert scores[ip] == ScoreFor(m, Succ64(watts[ip]));
    }
  }

  /** Each of the promises holds exactly when the largest int64 does not stand beside a smaller watt value. */
  lemma ScoreBounds(watts: Watts, scores: ScoreMap, m: int)
    requires Normalizes(watts, scores) && TrueLeast(watts, m) && forall ip :: ip in watts ==> Int64(watts[ip])
    ensures scores.Keys <= watts.Keys
    ensures WithinHalf(watts, scores, m) <==> !Mixed(watts)
    ensures CheapestFull(watts, scores, m) <==> !Mixed(watts)
    ensures ZeroWhenDear(watts, scores, m) <==> !Mixed(watts)
    ensures Antitone(watts, scores) <==> !Mixed(watts)
  {
    hide ScoreFor, IsLeast;
    if Mixed(watts) {
      MixedFails(watts, scores, m);
    } else if x :| Scored(watts, x) && watts[x] == MAX64 {
      AllLargest(watts, scores, m);
    } else {
      Unmixed(watts, scores, m);
    }
  }

  /** The order alone, for every watt map. */
  lemma AntitoneIff(watts: Watts, scores: ScoreMap)
    requires Normalizes(watts, scores) && forall ip :: ip in watts ==> Int64(watts[ip])
    ensures scores.Keys <= watts.Keys && (Antitone(watts, scores) <==> !Mixed(watts))
  {
    hide IsLeast;
    if ip :| Scored(watts, ip) {
      TrueLeastExists(watts, ip);
      var m :| TrueLeast(watts, m);
      ScoreBounds(watts, scores, m);
    }
  }

  /** Without the largest int64 the formula is the intended one. */
  lemma Unmixed(watts: Watts, scores: ScoreMap, m: int)
    requires Normalizes(watts, scores) && TrueLeast(watts, m) && forall ip :: ip in watts ==> Int64(watts[ip])
    requires forall ip :: Scored(watts, ip) ==> watts[ip] != MAX64
    ensures WithinHalf(watts, scores, m) && CheapestFull(watts, scores, m) && ZeroWhenDear(watts, scores, m)
    ensures Antitone(watts, scores)
  {
    assert IsLeast(watts, m);
    hide ScoreFor;
    forall ip | ip in scores
      ensures var w := watts[ip] + 1; -w <= 2 * (w * scores[ip]) - 200 * m <= w
      ensures watts[ip] + 1 == m ==> scores[ip] == 100
      ensures scores[ip] == 0 <==> watts[ip] + 1 > 200 * m
    {
      PositiveScore(m, watts[ip] + 1);
    }
    forall a, b | a in scores && b in scores && watts[a] <= watts[b]
      ensures scores[a] >= scores[b]
    {
      ScoreAntitone(m, watts[a] + 1, watts[b] + 1);
    }
  }

  /** If all watts are the largest int64, all wrap alike and all get 100. */
  lemma AllLargest(watts: Watts, scores: ScoreMap, m: int)
    requires Normalizes(watts, scores) && TrueLeast(watts, m) && forall ip :: Scored(watts, ip) ==> watts[ip] == MAX64
    ensures WithinHalf(watts, scores, m) && CheapestFull(watts, scores, m) && ZeroWhenDear(watts, scores, m)
    ensures Antitone(watts, scores)
  {
    assert IsLeast(watts, MIN64);
    WrappedScores(1);
    hide ScoreFor;
    assert m == MAX64 + 1;
    assert forall ip :: ip in scores ==> scores[ip] == 100;
  }

  /** Otherwise the cheapest endpoint gets nothing and the dearest everything. */
  lemma MixedFails(watts: Watts, scores: ScoreMap, m: int)
    requires Normalizes(watts, scores) && TrueLeast(watts, m) && Mixed(watts)
    requires forall ip :: ip in watts ==> Int64(watts[ip])
    ensures !WithinHalf(watts, scores, m) && !CheapestFull(watts, scores, m) && !ZeroWhenDear(watts, scores, m)
    ensures !Antitone(watts, scores)
  {
    var big, small :| Scored(watts, big) && watts[big] == MAX64 && Scored(watts, small) && watts[small] != MAX64;
    var least :| Scored(watts, least) && watts[least] + 1 == m;
    assert IsLeast(watts, MIN64);
    WrappedScores(m);
    hide ScoreFor;
    assert scores[big] == 100 && scores[least] == 0;
    assert watts[least] <= watts[big];
  }

  lemma WrappedScores(w: int)
    requires 0 < w <= MAX64
    ensures ScoreFor(MIN64, MIN64) == 100 && ScoreFor(MIN64, w) == 0
  {
    var x := 200 * -MIN64 + w;
    var q := x / (2 * w);
    assert q >= 0;
    assert RoundFraction(SCORE_MAX * MIN64, w) == -q;
  }

  // ---- The weighted dispatch rule ----

  /** Slot `n` belongs to the `i`-th endpoint. */
  ghost predicate Owns(eps: seq<Endpoint>, scores: ScoreMap, i: int, n: int) {
    0 <= i < |eps| && TotalScore(eps[..i], scores) <= n < TotalScore(eps[..i + 1], scores)
  }

  function Weight(scores: ScoreMap, ip: string): nat {
    var s := ScoreOf(scores, ip);
    if s > 0 then s else 0
  }

  lemma TotalSnoc(eps: seq<Endpoint>, scores: ScoreMap, i: nat)
    requires i < |eps|
    ensures TotalScore(eps[..i + 1], scores) == TotalScore(eps[..i], scores) + Weight(scores, eps[i].ip)
  {
    assert eps[..i + 1][..i] == eps[..i];
  }

  lemma {:induction false} TotalMonotone(eps: seq<Endpoint>, scores: ScoreMap, i: nat, j: nat)
    requires i <= j <= |eps|
    ensures TotalScore(eps[..i], scores) <= TotalScore(eps[..j], scores)
    decreases j - i
  {
    if i < j {
      TotalMonotone(eps, scores, i, j - 1);
      TotalSnoc(eps, scores, j - 1);
    }
  }

  /** At most one endpoint owns a slot. */
  lemma OwnerUnique(eps: seq<Endpoint>, scores: ScoreMap, i: int, j: int, n: int)
    requires Owns(eps, scores, i, n) && Owns(eps, scores, j, n)
    ensures i == j
  {
    if i < j {
      TotalMonotone(eps, scores, i + 1, j);
    } else if j < i {
      TotalMonotone(eps, scores, j + 1, i);
    }
  }

  /** The owner of a slot. */
  function OwnerOf(eps: seq<Endpoint>, scores: ScoreMap, n: int): (i: nat)
    requires 0 <= n < TotalScore(eps, scores)
    ensures i < |eps| && Owns(eps, scores, i, n)
    decreases |eps|
  {
    var init := eps[..|eps| - 1];
    assert eps[..|eps|] == eps;
    if n >= TotalScore(init, scores) then |eps| - 1
    else
      var i := OwnerOf(init, scores, n);
      assert init[..i] == eps[..i] && init[..i + 1] == eps[..i + 1];
      i
  }

  /** The arm a number selects. */
  function ArmFor(arms: seq<Arm>, n: int): Option<Chain> {
    if arms == [] then None
    else if arms[0].lo <= n <= arms[0].hi then Some(arms[0].target)
    else ArmFor(arms[1..], n)
  }

  ghost predicate Selects(arms: seq<Arm>, j: int, n: int) {
    0 <= j < |arms| && arms[j].lo <= n <= arms[j].hi
  }

  lemma {:induction false} ArmForSelected(arms: seq<Arm>, j: int, n: int)
    requires Selects(arms, j, n) && forall i :: Selects(arms, i, n) ==> i == j
    ensures ArmFor(arms, n) == Some(arms[j].target)
    decreases |arms|
  {
    if j == 0 {
    } else {
      assert !Selects(arms, 0, n);
      forall i | Selects(arms[1..], i, n)
        ensures i == j - 1
      {
        assert Selects(arms, i + 1, n);
      }
      assert Selects(arms[1..], j - 1, n);
      ArmForSelected(arms[1..], j - 1, n);
    }
  }

  /** The arms lie end to end from zero to the total. */
  ghost predicate EndToEnd(arms: seq<Arm>, total: nat) {
    && (arms == [] <==> total == 0)
    && (arms != [] ==> arms[0].lo == 0 && arms[|arms| - 1].hi == total - 1)
    && (forall j :: 0 <= j < |arms| ==> 0 <= arms[j].lo <= arms[j].hi < total)
    && (forall j :: 0 <= j < |arms| - 1 ==> arms[j + 1].lo == arms[j].hi + 1)
  }

  lemma EndToEndSnoc(arms: seq<Arm>, total: nat, arm: Arm)
    requires EndToEnd(arms, total) && arm.lo == total <= arm.hi
    ensures EndToEnd(arms + [arm], arm.hi + 1)
  {
    var all := arms + [arm];
    forall j | 0 <= j < |all| - 1
      ensures all[j + 1].lo == all[j].hi + 1
    {
      if j < |arms| - 1 {
        assert all[j] == arms[j] && all[j + 1] == arms[j + 1];
      } else {
        assert all[j] == arms[|arms| - 1] && all[j + 1] == arm;
      }
    }
  }

  lemma ArmsSnoc(spn: ServicePortName, eps: seq<Endpoint>, scores: ScoreMap)
    requires eps != []
    ensures var init, last := eps[..|eps| - 1], eps[|eps| - 1];
            var s, at := ScoreOf(scores, last.ip), TotalScore(init, scores);
            && TotalScore(eps, scores) == at + (if s > 0 then s else 0)
            && WaoArms(spn, eps, scores) ==
                 WaoArms(spn, init, scores) + if s > 0 then [Arm(at, at + s - 1, EpChain(spn, last))] else []
  {
  }

  /** The arms of a list do, each as wide as its endpoint's score. */
  lemma {:induction false} ArmsEndToEnd(spn: ServicePortName, eps: seq<Endpoint>, scores: ScoreMap)
    ensures EndToEnd(WaoArms(spn, eps, scores), TotalScore(eps, scores))
    decreases |eps|
  {
    if eps != [] {
      hide EndToEnd, WaoArms, TotalScore;
      var init, last := eps[..|eps| - 1], eps[|eps| - 1];
      ArmsEndToEnd(spn, init, scores);
      ArmsSnoc(spn, eps, scores);
      var s, at := ScoreOf(scores, last.ip), TotalScore(init, scores);
      if s > 0 {
        EndToEndSnoc(WaoArms(spn, init, scores), at, Arm(at, at + s - 1, EpChain(spn, last)));
      }
    }
  }

  /** Every number below the total selects exactly one arm, the arm of the slot's owner. */
  lemma {:induction false} ArmOfOwner(spn: ServicePortName, eps: seq<Endpoint>, scores: ScoreMap, n: int)
    returns (j: nat)
    requires 0 <= n < TotalScore(eps, scores)
    ensures Selects(WaoArms(spn, eps, scores), j, n)
    ensures forall i :: Selects(WaoArms(spn, eps, scores), i, n) ==> i == j
    ensures WaoArms(spn, eps, scores)[j].target == EpChain(spn, eps[OwnerOf(eps, scores, n)])
    decreases |eps|
  {
    var init, last := eps[..|eps| - 1], eps[|eps| - 1];
    var arms, before := WaoArms(spn, eps, scores), WaoArms(spn, init, scores);
    ArmsEndToEnd(spn, init, scores);
    if n >= TotalScore(init, scores) {
      j := |before|;
      assert arms[j].target == EpChain(spn, last);
      assert forall i :: 0 <= i < |before| ==> arms[i] == before[i];
    } else {
      j := ArmOfOwner(spn, init, scores, n);
      assert arms[j] == before[j];
      forall i | Selects(arms, i, n)
        ensures i == j
      {
        assert i < |before| ==> arms[i] == before[i] && Selects(before, i, n);
      }
    }
  }

  /** Weighted dispatch sends each number below the total to the owner of that slot. */
  lemma WaoDispatch(spn: ServicePortName, eps: seq<Endpoint>, scores: ScoreMap, n: int)
    requires 0 <= n < TotalScore(eps, scores)
    ensures ArmFor(WaoArms(spn, eps, scores), n) == Some(EpChain(spn, eps[OwnerOf(eps, scores, n)]))
  {
    var j := ArmOfOwner(spn, eps, scores, n);
    ArmForSelected(WaoArms(spn, eps, scores), j, n);
  }

  /** The numbers that select the chain of an endpoint. */
  ghost function SlotsOf(spn: ServicePortName, eps: seq<Endpoint>, scores: ScoreMap, e: Endpoint): set<int> {
    set n | 0 <= n < TotalScore(eps, scores) && ArmFor(WaoArms(spn, eps, scores), n) == Some(EpChain(spn, e))
  }

  ghost function Interval(lo: int, hi: int): (r: set<int>)
    requires lo <= hi
    ensures forall n :: n in r <==> lo <= n < hi
    ensures |r| == hi - lo
    decreases hi - lo
  {
    if lo == hi then {} else Interval(lo, hi - 1) + {hi - 1}
  }

  lemma DistinctChains(spn: ServicePortName, eps: seq<Endpoint>, i: nat, j: nat)
    requires UniqueAddresses(eps) && i < |eps| && j < |eps|
    ensures EpChain(spn, eps[i]) == EpChain(spn, eps[j]) ==> i == j
  {
    if EpChain(spn, eps[i]) == EpChain(spn, eps[j]) {
      assert eps[i].String() == eps[j].String();
    }
  }

  /** Some endpoint of the list owns the slot. */
  ghost predicate Claimed(spn: ServicePortName, eps: seq<Endpoint>, scores: ScoreMap, n: int) {
    exists i :: 0 <= i < |eps| && n in SlotsOf(spn, eps, scores, eps[i])
  }

  /** Each endpoint owns exactly as many slots as its score, none if it is not positive. */
  lemma SlotsOwned(spn: ServicePortName, eps: seq<Endpoint>, scores: ScoreMap, i: nat)
    requires UniqueAddresses(eps) && i < |eps|
    ensures TotalScore(eps[..i], scores) <= TotalScore(eps[..i + 1], scores)
    ensures SlotsOf(spn, eps, scores, eps[i]) ==
              Interval(TotalScore(eps[..i], scores), TotalScore(eps[..i + 1], scores))
    ensures |SlotsOf(spn, eps, scores, eps[i])| == Weight(scores, eps[i].ip)
  {
    var lo, hi := TotalScore(eps[..i], scores), TotalScore(eps[..i + 1], scores);
    TotalSnoc(eps, scores, i);
    TotalMonotone(eps, scores, i + 1, |eps|);
    assert eps[..|eps|] == eps;
    forall n: int
      ensures n in SlotsOf(spn, eps, scores, eps[i]) <==> lo <= n < hi
    {
      if 0 <= n < TotalScore(eps, scores) {
        SlotDecided(spn, eps, scores, i, n);
      }
    }
    assert SlotsOf(spn, eps, scores, eps[i]) == Interval(lo, hi);
  }

  lemma SlotDecided(spn: ServicePortName, eps: seq<Endpoint>, scores: ScoreMap, i: nat, n: int)
    requires UniqueAddresses(eps) && i < |eps| && 0 <= n < TotalScore(eps, scores)
    ensures ArmFor(WaoArms(spn, eps, scores), n) == Some(EpChain(spn, eps[i])) <==> Owns(eps, scores, i, n)
  {
    WaoDispatch(spn, eps, scores, n);
    var o := OwnerOf(eps, scores, n);
    DistinctChains(spn, eps, o, i);
    if Owns(eps, scores, i, n) {
      OwnerUnique(eps, scores, o, i, n);
    }
  }

  lemma {:induction false} TotalBounds(eps: seq<Endpoint>, scores: ScoreMap)
    requires forall ip :: ip in scores ==> scores[ip] <= 100
    ensures TotalScore(eps, scores) <= 100 * |eps|
    ensures UsesWao(eps, Some(scores)) <==> TotalScore(eps, scores) >= 1
    decreases |eps|
  {
    if eps != [] {
      var init := eps[..|eps| - 1];
      TotalBounds(init, scores);
      if UsesWao(eps, Some(scores)) && ScoreOf(scores, eps[|eps| - 1].ip) <= 0 {
        var i :| 0 <= i < |eps| && ScoreOf(scores, eps[i].ip) > 0;
        assert init[i] == eps[i];
      }
      if UsesWao(init, Some(scores)) {
        var i :| 0 <= i < |init| && ScoreOf(scores, init[i].ip) > 0;
        assert eps[i] == init[i];
      }
    }
  }

  predicate CheaperOrSame(watts: Watts, scores: ScoreMap, a: string, b: string) {
    a in scores && b in scores && a in watts && b in watts && watts[a] <= watts[b]
  }

  lemma TrueLeastExists(watts: Watts, ip: string)
    requires Scored(watts, ip)
    ensures exists m :: TrueLeast(watts, m)
    decreases watts[ip]
  {
    if !TrueLeast(watts, watts[ip] + 1) {
      var other :| Scored(watts, other) && watts[other] < watts[ip];
      TrueLeastExists(watts, other);
    }
  }

  /** Weighted dispatch is an exact partition whose parts follow the watts. */
  lemma WeightedDispatch(spn: ServicePortName, eps: seq<Endpoint>, watts: Watts, scores: ScoreMap)
    requires UniqueAddresses(eps) && UsesWao(eps, Some(scores)) && Normalizes(watts, scores)
    requires forall ip :: ip in watts ==> Int64(watts[ip])
    ensures WaoArms(spn, eps, scores) != [] && 1 <= TotalScore(eps, scores) <= 100 * |eps|
    ensures forall n :: 0 <= n < TotalScore(eps, scores) ==> Claimed(spn, eps, scores, n)
    ensures forall i, j :: 0 <= i < |eps| && 0 <= j < |eps| && i != j ==>
              SlotsOf(spn, eps, scores, eps[i]) !! SlotsOf(spn, eps, scores, eps[j])
    ensures forall i :: 0 <= i < |eps| ==> |SlotsOf(spn, eps, scores, eps[i])| == Weight(scores, eps[i].ip)
    ensures !Mixed(watts) ==>
              forall i, j :: 0 <= i < |eps| && 0 <= j < |eps| && CheaperOrSame(watts, scores, eps[i].ip, eps[j].ip) ==>
                |SlotsOf(spn, eps, scores, eps[i])| >= |SlotsOf(spn, eps, scores, eps[j])|
  {
    ScoreRange(watts, scores);
    if !Mixed(watts) {
      var positive :| 0 <= positive < |eps| && ScoreOf(scores, eps[positive].ip) > 0;
      TrueLeastExists(watts, eps[positive].ip);
      var m :| TrueLeast(watts, m);
      ScoreBounds(watts, scores, m);
    }
    hide Normalizes, Mixed;
    TotalBounds(eps, scores);
    ArmsEndToEnd(spn, eps, scores);
    forall i | 0 <= i < |eps|
      ensures |SlotsOf(spn, eps, scores, eps[i])| == Weight(scores, eps[i].ip)
    {
      SlotsOwned(spn, eps, scores, i);
    }
    forall n | 0 <= n < TotalScore(eps, scores)
      ensures Claimed(spn, eps, scores, n)
    {
      WaoDispatch(spn, eps, scores, n);
      assert n in SlotsOf(spn, eps, scores, eps[OwnerOf(eps, scores, n)]);
    }
    forall i, j | 0 <= i < |eps| && 0 <= j < |eps| && i != j
      ensures SlotsOf(spn, eps, scores, eps[i]) !! SlotsOf(spn, eps, scores, eps[j])
    {
      DistinctChains(spn, eps, i, j);
    }
  }

  /** The uniform fallback: each number below the length selects its own endpoint. */
  lemma {:induction false} EvenDispatch(spn: ServicePortName, eps: seq<Endpoint>, n: int)
    requires 0 <= n < |eps|
    ensures ArmFor(EvenArms(spn, eps), n) == Some(EpChain(spn, eps[n]))
  {
    ArmForSelected(EvenArms(spn, eps), n, n);
  }
}
