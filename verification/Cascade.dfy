/** The iptables load-balancing cascade (iptables/proxier.go), in exact arithmetic. */
module Cascade {
  import opened ProxyTypes

  /** A rule matches with its probability, or always. */
  datatype CascadeRule = CascadeRule(probability: Option<real>, target: string)

  function MatchChance(r: CascadeRule): real {
    if r.probability.Some? then r.probability.value else 1.0
  }

  /** The chance that a packet gets past the first `i` rules. */
  function PassChance(rules: seq<CascadeRule>, i: nat): real
    requires i <= |rules|
  {
    if i == 0 then 1.0 else PassChance(rules, i - 1) * (1.0 - MatchChance(rules[i - 1]))
  }

  /** The chance that the `i`-th rule is the one that takes the packet. */
  function SelectChance(rules: seq<CascadeRule>, i: nat): real
    requires i < |rules|
  {
    PassChance(rules, i) * MatchChance(rules[i])
  }

  /** The chance that one of the first `i` rules takes the packet. */
  function TakenChance(rules: seq<CascadeRule>, i: nat): real
    requires i <= |rules|
  {
    if i == 0 then 0.0 else TakenChance(rules, i - 1) + SelectChance(rules, i - 1)
  }

  /** `computeProbability`, without the rounding to ten digits. */
  function Inverse(n: int): real
    requires n != 0
  {
    1.0 / n as real
  }

  /** The probability cache; entry zero stands for the "<bad value>". */
  class Probabilities {
    var precomputed: seq<Option<real>>

    ghost predicate Valid()
      reads this
    {
      && (precomputed != [] ==> precomputed[0] == None)
      && (forall i :: 1 <= i < |precomputed| ==> precomputed[i] == Some(Inverse(i)))
    }

    constructor ()
      ensures Valid()
    {
      precomputed := [];
    }

    method Precompute(n: nat)
      requires Valid()
      modifies this
      ensures Valid() && |precomputed| > n && old(precomputed) <= precomputed
    {
      if |precomputed| == 0 {
        precomputed := precomputed + [None];
      }
      while |precomputed| <= n
        invariant Valid() && |precomputed| > 0 && old(precomputed) <= precomputed
        decreases n - |precomputed|
      {
        hide Inverse;
        precomputed := precomputed + [Some(Inverse(|precomputed|))];
      }
    }

    /** The cache agrees with direct computation, however it has grown. */
    method Probability(n: nat) returns (p: Option<real>)
      requires Valid()
      modifies this
      ensures Valid() && old(precomputed) <= precomputed
      ensures p == if n == 0 then None else Some(Inverse(n))
    {
      if n >= |precomputed| {
        Precompute(n);
      }
      p := precomputed[n];
    }

    /**
     The load-balancing rules: the cache is never asked for index zero, so every rule but the last
     has a probability.
     */
    method WriteServiceToEndpointRules(endpoints: seq<string>) returns (rules: seq<CascadeRule>)
      requires Valid()
      modifies this
      ensures Valid() && IsCascade(rules, endpoints)
    {
      rules := [];
      for i := 0 to |endpoints|
        invariant Valid() && |rules| == i
        invariant forall j :: 0 <= j < i ==> rules[j].target == endpoints[j]
        invariant forall j :: 0 <= j < i && j < |endpoints| - 1 ==>
                    rules[j].probability == Some(Inverse(|endpoints| - j))
        invariant forall j :: 0 <= j < i && j == |endpoints| - 1 ==> rules[j].probability == None
      {
        var p: Option<real> := None;
        if i < |endpoints| - 1 {
          p := Probability(|endpoints| - i);
        }
        rules := rules + [CascadeRule(p, endpoints[i])];
      }
    }
  }

  /** Rule i of n matches with probability 1 / (n - i), the last one always. */
  ghost predicate IsCascade(rules: seq<CascadeRule>, endpoints: seq<string>) {
    && |rules| == |endpoints|
    && (forall j :: 0 <= j < |rules| ==> rules[j].target == endpoints[j])
    && (forall j :: 0 <= j < |rules| - 1 ==> rules[j].probability == Some(Inverse(|rules| - j)))
    && (rules != [] ==> rules[|rules| - 1].probability == None)
  }

  lemma StepChance(n: real, left: real)
    requires n > 0.0 && left > 1.0
    ensures (left / n) * (1.0 - 1.0 / left) == (left - 1.0) / n
  {
    assert (left / n) * (1.0 / left) == 1.0 / n;
  }

  /** A packet gets past the first i rules with probability (n - i) / n. */
  lemma {:induction false} PassedSoFar(rules: seq<CascadeRule>, endpoints: seq<string>, i: nat)
    requires IsCascade(rules, endpoints) && i < |rules|
    ensures PassChance(rules, i) == (|rules| - i) as real / |rules| as real
  {
    if i > 0 {
      PassedSoFar(rules, endpoints, i - 1);
      StepChance(|rules| as real, (|rules| - (i - 1)) as real);
    }
  }

  /** Every endpoint is selected with probability exactly 1 / n. */
  lemma Uniform(rules: seq<CascadeRule>, endpoints: seq<string>, i: nat)
    requires IsCascade(rules, endpoints) && i < |rules|
    ensures SelectChance(rules, i) == Inverse(|rules|)
  {
    PassedSoFar(rules, endpoints, i);
    var n, left := |rules| as real, (|rules| - i) as real;
    if i < |rules| - 1 {
      assert (left / n) * (1.0 / left) == 1.0 / n;
    }
  }

  lemma {:induction false} TakenSoFar(rules: seq<CascadeRule>, endpoints: seq<string>, i: nat)
    requires IsCascade(rules, endpoints) && i <= |rules| && rules != []
    ensures TakenChance(rules, i) == i as real / |rules| as real
  {
    if i > 0 {
      TakenSoFar(rules, endpoints, i - 1);
      Uniform(rules, endpoints, i - 1);
    }
  }

  /** And no packet falls through. */
  lemma AlwaysTaken(rules: seq<CascadeRule>, endpoints: seq<string>)
    requires IsCascade(rules, endpoints) && rules != []
    ensures TakenChance(rules, |rules|) == 1.0
  {
    TakenSoFar(rules, endpoints, |rules|);
    SelfQuotient(|rules| as real);
  }

  lemma SelfQuotient(x: real)
    requires x != 0.0
    ensures x / x == 1.0
  {
  }
}
