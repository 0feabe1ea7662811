/** Sums of counts over sets of names, and what always adding to a least count leads to. */
module Balance {
  type Counts = map<string, nat>

  /** A Go map read: missing keys count zero. */
  function At(m: Counts, x: string): nat {
    if x in m then m[x] else 0
  }

  ghost function SumOver(m: Counts, keys: set<string>): nat {
    if keys == {} then 0
    else
      var x :| x in keys;
      At(m, x) + SumOver(m, keys - {x})
  }

  ghost function Sum(m: Counts): nat {
    SumOver(m, m.Keys)
  }

  /** Any element may be taken out first. */
  lemma {:induction false} SumRemove(m: Counts, keys: set<string>, x: string)
    requires x in keys
    ensures SumOver(m, keys) == At(m, x) + SumOver(m, keys - {x})
    decreases |keys|
  {
    var y :| y in keys && SumOver(m, keys) == At(m, y) + SumOver(m, keys - {y});
    if y != x {
      SumRemove(m, keys - {y}, x);
      SumRemove(m, keys - {x}, y);
      assert keys - {y} - {x} == keys - {x} - {y};
    }
  }

  lemma {:induction false} SumSame(a: Counts, b: Counts, keys: set<string>)
    requires forall x :: x in keys ==> At(a, x) == At(b, x)
    ensures SumOver(a, keys) == SumOver(b, keys)
    decreases |keys|
  {
    if keys != {} {
      var x :| x in keys;
      SumRemove(a, keys, x);
      SumRemove(b, keys, x);
      SumSame(a, b, keys - {x});
    }
  }

  function Bump(m: Counts, x: string, k: nat): Counts {
    if k == 0 then m else m[x := At(m, x) + k]
  }

  lemma SumBump(m: Counts, keys: set<string>, x: string, k: nat)
    ensures SumOver(Bump(m, x, k), keys) == SumOver(m, keys) + (if x in keys then k else 0)
  {
    var m' := Bump(m, x, k);
    if x in keys {
      SumRemove(m, keys, x);
      SumRemove(m', keys, x);
      SumSame(m, m', keys - {x});
    } else {
      SumSame(m, m', keys);
    }
  }

  /** A key that counts zero adds nothing. */
  lemma SumZero(m: Counts, keys: set<string>, x: string)
    requires At(m, x) == 0
    ensures SumOver(m, keys + {x}) == SumOver(m, keys)
  {
    if x !in keys {
      SumRemove(m, keys + {x}, x);
      assert keys + {x} - {x} == keys;
    } else {
      assert keys + {x} == keys;
    }
  }

  lemma {:induction false} SumOfZeros(m: Counts, keys: set<string>)
    requires forall x :: x in keys ==> At(m, x) == 0
    ensures SumOver(m, keys) == 0
    decreases |keys|
  {
    if keys != {} {
      var x :| x in keys;
      SumRemove(m, keys, x);
      SumOfZeros(m, keys - {x});
    }
  }

  /** Bumping keeps the total in step. */
  lemma SumBumped(m: Counts, x: string, k: nat)
    ensures Sum(Bump(m, x, k)) == Sum(m) + k
  {
    if k > 0 {
      SumBump(m, m.Keys + {x}, x, k);
      assert Bump(m, x, k).Keys == m.Keys + {x};
      if x !in m {
        SumZero(m, m.Keys, x);
      } else {
        assert m.Keys + {x} == m.Keys;
      }
    }
  }

  // ---- Balance ----

  ghost predicate IsLeast(m: Counts, x: string) {
    x in m && forall y :: y in m ==> m[x] <= m[y]
  }

  ghost predicate Balanced(m: Counts) {
    forall x, y :: x in m && y in m ==> m[x] <= m[y] + 1
  }

  /** Adding one where the count is least keeps counts within one of each other. */
  lemma BalanceStep(m: Counts, x: string)
    requires Balanced(m) && IsLeast(m, x)
    ensures Balanced(m[x := m[x] + 1])
  {
  }

  lemma LeastExists(m: Counts, x: string)
    requires x in m
    ensures exists y :: IsLeast(m, y)
    decreases m[x]
  {
    if !IsLeast(m, x) {
      var y :| y in m && m[y] < m[x];
      LeastExists(m, y);
    }
  }

  /** Bounds on every count bound the sum; a count off a bound makes it strict. */
  lemma {:induction false} SumBounds(m: Counts, keys: set<string>, lo: nat, hi: nat)
    requires forall x :: x in keys ==> lo <= At(m, x) <= hi
    ensures |keys| * lo <= SumOver(m, keys) <= |keys| * hi
    decreases |keys|
  {
    if keys != {} {
      var x :| x in keys;
      SumRemove(m, keys, x);
      SumBounds(m, keys - {x}, lo, hi);
      Distribute(|keys| - 1, lo);
      Distribute(|keys| - 1, hi);
    }
  }

  lemma Distribute(n: nat, c: nat)
    ensures (n + 1) * c == n * c + c
  {
  }

  /** With total r over n balanced counts, each is the floor or the ceiling of r / n. */
  lemma FloorOrCeiling(m: Counts, x: string)
    requires Balanced(m) && x in m
    ensures var r, n := Sum(m), |m|; m[x] == r / n || (m[x] == r / n + 1 && r % n != 0)
  {
    hide Sum;
    LeastExists(m, x);
    var y :| IsLeast(m, y);
    LeastBounds(m, y, x);
    Quotient(Sum(m), |m.Keys|, m[y]);
  }

  /** The sum lies between n times the least count and n times one more; a count above the least pushes it up. */
  lemma LeastBounds(m: Counts, y: string, x: string)
    requires Balanced(m) && IsLeast(m, y) && x in m
    ensures var r, n, lo := Sum(m), |m.Keys|, m[y];
            n > 0 && n * lo <= r < n * (lo + 1) && lo <= m[x] <= lo + 1 && (m[x] == lo + 1 ==> r > n * lo)
  {
    var n, lo := |m.Keys|, m[y];
    SumRemove(m, m.Keys, y);
    SumBounds(m, m.Keys - {y}, lo, lo + 1);
    Around(n, lo, SumOver(m, m.Keys - {y}));
    SumRemove(m, m.Keys, x);
    SumBounds(m, m.Keys - {x}, lo, lo + 1);
    Around(n, lo, SumOver(m, m.Keys - {x}));
  }

  lemma Around(n: nat, lo: nat, rest: nat)
    requires n > 0 && (n - 1) * lo <= rest <= (n - 1) * (lo + 1)
    ensures n * lo <= lo + rest < n * (lo + 1)
  {
    Distribute(n - 1, lo);
    Distribute(n - 1, lo + 1);
  }

  lemma Quotient(r: nat, n: nat, q: nat)
    requires n > 0 && n * q <= r < n * (q + 1)
    ensures r / n == q && r % n == r - n * q
  {
    var p := r / n;
    assert r == n * p + r % n;
    Monotone(n, p + 1, q);
    Monotone(n, q + 1, p);
  }

  lemma Monotone(n: nat, a: nat, b: nat)
    ensures a <= b ==> n * a <= n * b
  {
  }
}
