/**
 Text helpers shared by the model: decimal rendering, the byte-wise string order that
 `sort.Sort` uses, and the join/split pair with which nftables element keys are stored.
 */
module Strings {

  /** `strconv.Itoa` on a non-negative number. */
  function Itoa(n: nat): (s: string)
    ensures |s| > 0
    ensures forall i :: 0 <= i < |s| ==> '0' <= s[i] <= '9'
    decreases n
  {
    if n < 10 then [Digit(n)] else Itoa(n / 10) + [Digit(n % 10)]
  }

  function Digit(d: nat): (c: char)
    requires d < 10
    ensures '0' <= c <= '9'
    ensures c as int - '0' as int == d
  {
    '0' + (d as char)
  }

  /** Reads a decimal rendering back. */
  function Atoi(s: string): (n: nat)
    requires forall i :: 0 <= i < |s| ==> '0' <= s[i] <= '9'
  {
    if s == [] then 0 else 10 * Atoi(s[..|s| - 1]) + (s[|s| - 1] as int - '0' as int)
  }

  lemma {:induction false} AtoiItoa(n: nat)
    ensures Atoi(Itoa(n)) == n
  {
    if n >= 10 {
      AtoiItoa(n / 10);
      assert Itoa(n)[..|Itoa(n)| - 1] == Itoa(n / 10);
    } else {
      assert Itoa(n)[..0] == [];
    }
  }

  lemma ItoaInjective(m: nat, n: nat)
    requires Itoa(m) == Itoa(n)
    ensures m == n
  {
    AtoiItoa(m);
    AtoiItoa(n);
  }

  /** Byte-wise lexicographic order, Go's `<` on strings. */
  predicate Less(a: string, b: string)
  {
    if b == [] then false
    else if a == [] then true
    else a[0] < b[0] || (a[0] == b[0] && Less(a[1..], b[1..]))
  }

  lemma {:induction false} LessTransitive(a: string, b: string, c: string)
    requires Less(a, b) && Less(b, c)
    ensures Less(a, c)
  {
    if a != [] && a[0] == b[0] == c[0] {
      LessTransitive(a[1..], b[1..], c[1..]);
    }
  }

  lemma {:induction false} LessIrreflexive(a: string)
    ensures !Less(a, a)
  {
    if a != [] {
      LessIrreflexive(a[1..]);
    }
  }

  lemma {:induction false} LessTotal(a: string, b: string)
    ensures Less(a, b) || Less(b, a) || a == b
  {
    if a != [] && b != [] && a[0] == b[0] {
      LessTotal(a[1..], b[1..]);
      assert a == [a[0]] + a[1..] && b == [b[0]] + b[1..];
    }
  }

  /** A component that `strings.Split` on " . " cannot cut. */
  predicate SpaceFree(s: string) {
    ' ' !in s
  }

  predicate SpaceFreeKey(key: seq<string>) {
    key != [] && forall i :: 0 <= i < |key| ==> SpaceFree(key[i])
  }

  const SEP := " . "

  /** `strings.Join(k, " . ")`. */
  function Join(key: seq<string>): string
  {
    if key == [] then "" else if |key| == 1 then key[0] else key[0] + SEP + Join(key[1..])
  }

  /** `strings.Split(s, " . ")`: `part` is the component read so far. */
  function SplitFrom(s: string, part: string): (parts: seq<string>)
    ensures parts != []
    decreases |s|
  {
    if s == [] then [part]
    else if |s| >= 3 && s[..3] == SEP then [part] + SplitFrom(s[3..], "")
    else SplitFrom(s[1..], part + [s[0]])
  }

  function Split(s: string): (parts: seq<string>)
    ensures parts != []
  {
    SplitFrom(s, "")
  }

  /** A space-free prefix is read into the current component, whatever follows it. */
  lemma {:induction false} SplitReadsComponent(word: string, rest: string, part: string)
    requires SpaceFree(word)
    ensures SplitFrom(word + rest, part) == SplitFrom(rest, part + word)
    decreases |word|
  {
    if word == [] {
      assert word + rest == rest && part + word == part;
    } else {
      var s := word + rest;
      assert s[0] == word[0] != ' ';
      assert s[1..] == word[1..] + rest;
      SplitReadsComponent(word[1..], rest, part + [word[0]]);
      assert part + [word[0]] + word[1..] == part + word;
    }
  }

  /** Storing a key as one string loses nothing. */
  lemma {:induction false} SplitJoin(key: seq<string>)
    requires SpaceFreeKey(key)
    ensures Split(Join(key)) == key
    decreases |key|
  {
    if |key| == 1 {
      SplitReadsComponent(key[0], "", "");
      assert key[0] + "" == key[0] && "" + key[0] == key[0];
      assert key == [key[0]];
    } else {
      var tail := SEP + Join(key[1..]);
      assert Join(key) == key[0] + tail;
      SplitReadsComponent(key[0], tail, "");
      assert "" + key[0] == key[0];
      assert tail[..3] == SEP && tail[3..] == Join(key[1..]);
      SplitJoin(key[1..]);
      assert key == [key[0]] + key[1..];
    }
  }
}
