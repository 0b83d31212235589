/** The categorical distribution `Categorical` of src/apd.rs: a list of
    probabilities, normalised once when it is built, sampled by walking the
    list with one uniform draw of the generator. Probabilities are `f32` in
    the source and `real` here: the sums and quotients are exact, without
    rounding. */
module Categorical {
  import Rng

  datatype Option<T> = None | Some(value: T)

  /** `Categorical { probs }`. Nothing changes it after construction. */
  datatype Categorical = Categorical(probs: seq<real>)

  /** `probs.iter().sum()`: the entries added from left to right, from 0. */
  function Sum(s: seq<real>): real
    decreases |s|
  {
    if |s| == 0 then 0.0 else Sum(s[..|s| - 1]) + s[|s| - 1]
  }

  predicate NonNegative(s: seq<real>) {
    forall i :: 0 <= i < |s| ==> 0.0 <= s[i]
  }

  /** Every entry divided by `k`. */
  function Scale(s: seq<real>, k: real): (r: seq<real>)
    requires k != 0.0
    ensures |r| == |s|
    ensures forall i :: 0 <= i < |s| ==> r[i] == s[i] / k
  {
    seq(|s|, i requires 0 <= i < |s| => s[i] / k)
  }

  /** The probabilities `Categorical::new` keeps for `s`: divided by their
      total when the total exceeds 1, unchanged otherwise. */
  function Normalized(s: seq<real>): (r: seq<real>)
    ensures |r| == |s|
  {
    if Sum(s) > 1.0 then Scale(s, Sum(s)) else s
  }

  // ---------------------------------------------------------------------
  // Sums

  lemma {:induction false} SumScale(s: seq<real>, k: real)
    requires k != 0.0
    ensures Sum(Scale(s, k)) == Sum(s) / k
    decreases |s|
  {
    if |s| > 0 {
      var n := |s| - 1;
      assert Scale(s, k)[..n] == Scale(s[..n], k);
      SumScale(s[..n], k);
    }
  }

  /** With no negative entry, no prefix adds up to more than the whole. */
  lemma {:induction false} SumPrefixAtMost(s: seq<real>, j: nat)
    requires NonNegative(s)
    requires j <= |s|
    ensures Sum(s[..j]) <= Sum(s)
    decreases |s|
  {
    if j < |s| {
      var n := |s| - 1;
      assert s[..n][..j] == s[..j];
      SumPrefixAtMost(s[..n], j);
    } else {
      assert s[..j] == s;
    }
  }

  lemma SumAppend(s: seq<real>, i: nat)
    requires i < |s|
    ensures Sum(s[..i + 1]) == Sum(s[..i]) + s[i]
  {
    assert s[..i + 1][..i] == s[..i];
  }

  // ---------------------------------------------------------------------
  // Construction

  /** The normalised total is 1 when the input total exceeded 1 and the
      input total otherwise; in both cases it is at most 1. */
  lemma NormalizedSum(s: seq<real>)
    ensures Sum(s) > 1.0 ==> Sum(Normalized(s)) == 1.0
    ensures Sum(s) <= 1.0 ==> Normalized(s) == s
    ensures Sum(Normalized(s)) <= 1.0
  {
    if Sum(s) > 1.0 {
      SumScale(s, Sum(s));
    }
  }

  /** Normalising twice is normalising once. */
  lemma NormalizedIdempotent(s: seq<real>)
    ensures Normalized(Normalized(s)) == Normalized(s)
  {
    NormalizedSum(s);
  }

  /** Normalising keeps every entry's sign: it divides by a positive
      total or does nothing. */
  lemma NormalizedNonNegative(s: seq<real>)
    requires NonNegative(s)
    ensures NonNegative(Normalized(s))
  {
  }

  /** Two construction examples: a list totalling 2 is halved, a list
      totalling 0.5 is kept. */
  lemma NormalizedExamples()
    ensures Normalized([0.5, 1.0, 0.5]) == [0.25, 0.5, 0.25]
    ensures Normalized([0.2, 0.3]) == [0.2, 0.3]
  {
    assert Sum([0.5, 1.0, 0.5]) == 2.0 by {
      assert [0.5, 1.0, 0.5][..2] == [0.5, 1.0];
      assert [0.5, 1.0][..1] == [0.5];
      assert [0.5][..0] == [];
    }
    assert Sum([0.2, 0.3]) == 0.5 by {
      assert [0.2, 0.3][..1] == [0.2];
      assert [0.2][..0] == [];
    }
  }

  /** The `probs.iter().sum()` of `Categorical::new` and `log_prob`. */
  method SumOf(s: seq<real>) returns (total: real)
    ensures total == Sum(s)
  {
    total := 0.0;
    var i := 0;
    while i < |s|
      invariant 0 <= i <= |s|
      invariant total == Sum(s[..i])
    {
      SumAppend(s, i);
      total := total + s[i];
      i := i + 1;
    }
    assert s[..i] == s;
  }

  /** `Categorical::new`: when the total exceeds 1, divides every entry of
      `probs` by it in place; then keeps the list. */
  method New(probs: array<real>) returns (c: Categorical)
    modifies probs
    ensures probs[..] == Normalized(old(probs[..]))
    ensures c.probs == probs[..]
  {
    var sum := SumOf(probs[..]);
    if sum > 1.0 {
      var i := 0;
      while i < probs.Length
        invariant 0 <= i <= probs.Length
        invariant forall j :: 0 <= j < i ==> probs[j] == old(probs[j]) / sum
        invariant forall j :: i <= j < probs.Length ==> probs[j] == old(probs[j])
      {
        probs[i] := probs[i] / sum;
        i := i + 1;
      }
      assert probs[..] == Scale(old(probs[..]), sum);
    }
    c := Categorical(probs[..]);
  }

  // ---------------------------------------------------------------------
  // log_prob

  /** The probability `Categorical::log_prob` passes to `ln` for outcome `x`:
      the stored entry, renormalised by the stored total when that exceeds 1.
      Indexing past the end panics in the source, hence the precondition. */
  function LogProbArg(c: Categorical, x: nat): (p: real)
    requires x < |c.probs|
    ensures p == Normalized(c.probs)[x]
  {
    var sum := Sum(c.probs);
    var prob := c.probs[x];
    if sum > 1.0 then prob / sum else prob
  }

  /** For a distribution built by `Categorical::new`, the renormalising
      branch of `log_prob` is never taken: the argument of `ln` is the stored
      entry itself. */
  lemma LogProbOfNew(s: seq<real>, x: nat)
    requires x < |s|
    ensures Sum(Normalized(s)) <= 1.0
    ensures LogProbArg(Categorical(Normalized(s)), x) == Normalized(s)[x]
  {
    NormalizedSum(s);
  }

  // ---------------------------------------------------------------------
  // Sampling

  /** The walk of `Categorical::sample` from index `i` with `rest` left of
      the noise: the index it returns, or None when it runs off the end of
      the list, where the source reaches `unreachable!`. */
  function Walk(probs: seq<real>, i: nat, rest: real): Option<nat>
    requires i <= |probs|
    decreases |probs| - i
  {
    if i == |probs| then None
    else if rest < probs[i] then Some(i)
    else Walk(probs, i + 1, rest - probs[i])
  }

  /** The outcome `Categorical::sample` returns for the draw `noise`. */
  function Pick(probs: seq<real>, noise: real): Option<nat> {
    Walk(probs, 0, noise)
  }

  /** The walk goes past index `j`: the noise is at least the total of the
      entries up to and including `j`. */
  predicate Passed(probs: seq<real>, noise: real, j: nat)
    requires j < |probs|
  {
    Sum(probs[..j + 1]) <= noise
  }

  lemma {:induction false} WalkFirstUnpassed(probs: seq<real>, noise: real, i: nat)
    requires i <= |probs|
    ensures Walk(probs, i, noise - Sum(probs[..i])).Some? ==>
      var k := Walk(probs, i, noise - Sum(probs[..i])).value;
      i <= k < |probs| && !Passed(probs, noise, k) &&
      forall j :: i <= j < k ==> Passed(probs, noise, j)
    ensures Walk(probs, i, noise - Sum(probs[..i])).None? ==>
      forall j :: i <= j < |probs| ==> Passed(probs, noise, j)
    decreases |probs| - i
  {
    if i < |probs| {
      SumAppend(probs, i);
      if noise - Sum(probs[..i]) >= probs[i] {
        assert noise - Sum(probs[..i]) - probs[i] == noise - Sum(probs[..i + 1]);
        WalkFirstUnpassed(probs, noise, i + 1);
      }
    }
  }

  /** `Categorical::sample` returns the least index `k` at which the running
      total of the entries exceeds the noise, and reaches `unreachable!`
      exactly when there is no such index. */
  lemma PickSpec(probs: seq<real>, noise: real, k: nat)
    ensures Pick(probs, noise) == Some(k) <==>
      k < |probs| && !Passed(probs, noise, k) &&
      forall j :: 0 <= j < k ==> Passed(probs, noise, j)
    ensures Pick(probs, noise) == None <==>
      forall j :: 0 <= j < |probs| ==> Passed(probs, noise, j)
  {
    assert probs[..0] == [];
    WalkFirstUnpassed(probs, noise, 0);
  }

  /** With no negative entry and a non-negative noise, the walk runs off the
      end exactly when the noise is at least the total. */
  lemma PickExhausted(probs: seq<real>, noise: real)
    requires NonNegative(probs)
    requires 0.0 <= noise
    ensures Pick(probs, noise) == None <==> Sum(probs) <= noise
  {
    PickSpec(probs, noise, 0);
    if Pick(probs, noise) == None && |probs| > 0 {
      assert Passed(probs, noise, |probs| - 1);
      assert probs[..|probs|] == probs;
    }
    if Sum(probs) <= noise {
      forall j | 0 <= j < |probs|
        ensures Passed(probs, noise, j)
      {
        SumPrefixAtMost(probs, j + 1);
      }
    }
  }

  /** For a distribution built by `Categorical::new` from non-negative
      entries totalling at least 1, every draw below 1 yields an outcome, and
      the draw 1 yields none. */
  lemma NewSampleTotal(s: seq<real>, noise: real)
    requires NonNegative(s)
    requires 1.0 <= Sum(s)
    requires 0.0 <= noise <= 1.0
    ensures Pick(Normalized(s), noise).Some? <==> noise < 1.0
  {
    NormalizedSum(s);
    NormalizedNonNegative(s);
    PickExhausted(Normalized(s), noise);
  }

  /** The walk can reach `unreachable!` even when the entries total exactly
      1: the first sample drawn from a generator seeded with 0xF03CEF1B is
      exactly 1, beyond every running total. */
  lemma FirstSampleExhausts(probs: seq<real>)
    requires NonNegative(probs)
    requires Sum(probs) == 1.0
    ensures Pick(probs, Rng.Draw(0xF03C_EF1B, 1)) == None
  {
    Rng.DrawReachesOne();
    PickExhausted(probs, 1.0);
  }

  /** `Categorical::sample`: draws one value `noise` from the generator, then
      walks the list, returning the first index whose entry exceeds what is
      left of the noise and subtracting the entry otherwise. None stands for
      the `unreachable!` panic after the loop. */
  method Sample(c: Categorical, rng: Rng.Generator) returns (r: Option<nat>)
    requires rng.Valid()
    modifies rng
    ensures rng.Valid()
    ensures rng.pos == old(rng.pos) + 1
    ensures rng.drawn == old(rng.drawn) + [Rng.Draw(rng.seed, old(rng.pos))]
    ensures r == Pick(c.probs, Rng.Draw(rng.seed, old(rng.pos)))
  {
    var noise := rng.Sample();
    ghost var noise0 := noise;
    for i := 0 to |c.probs|
      invariant Walk(c.probs, i, noise) == Pick(c.probs, noise0)
    {
      if noise < c.probs[i] {
        return Some(i);
      }
      noise := noise - c.probs[i];
    }
    return None;
  }
}
