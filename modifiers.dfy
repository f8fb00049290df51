/**
 * The cyclic-modifier arithmetic shared by the hub's client-stream and
 * bidirectional methods: input item i is multiplied by modifier i mod |m|.
 */
module Modifiers {
  import opened Int32Arith

  /** The mathematical sum of a sequence. */
  function Sum(s: seq<int>): int
  {
    if s == [] then 0 else Sum(s[..|s| - 1]) + s[|s| - 1]
  }

  /**
   * The products the hub forms, as mathematical integers: item i times
   * modifier i mod |m|. With no modifiers only the empty input has a meaning.
   */
  function Weighted(v: seq<Int32>, m: seq<Int32>): (r: seq<int>)
    requires |m| > 0 || |v| == 0
  {
    seq(|v|, i requires 0 <= i < |v| => (v[i] as int) * (m[i % |m|] as int))
  }

  /** The closed-form result of the client-stream fold: the sum over i of v[i] * m[i mod |m|]. */
  function CyclicSum(v: seq<Int32>, m: seq<Int32>): int
    requires |m| > 0 || |v| == 0
  {
    Sum(Weighted(v, m))
  }

  /** The items the bidirectional method writes: each product truncated to 32 bits. */
  function CyclicProducts(v: seq<Int32>, m: seq<Int32>): (r: seq<Int32>)
    requires |m| > 0 || |v| == 0
  {
    seq(|v|, i requires 0 <= i < |v| => Wrap32((v[i] as int) * (m[i % |m|] as int)))
  }

  /** Euclidean division leaves a unique remainder. */
  lemma ModUnique(x: int, n: int, q: int, r: int)
    requires 0 <= r < n && x == q * n + r
    ensures x % n == r
  {
    var d := q - x / n;
    assert d * n == x % n - r;
  }

  /** The modifier index advances cyclically: after position k comes position k + 1 mod n. */
  lemma NextIndex(k: nat, n: nat)
    requires n > 0
    ensures (k + 1) % n == (k % n + 1) % n
  {
    var q, r := k / n, k % n;
    if r + 1 < n {
      ModUnique(k + 1, n, q, r + 1);
    } else {
      ModUnique(k + 1, n, q + 1, 0);
    }
  }

  /** Extending the input by one item adds that item times the next modifier in the cycle. */
  lemma CyclicSumStep(v: seq<Int32>, m: seq<Int32>, k: nat)
    requires |m| > 0 && k < |v|
    ensures CyclicSum(v[..k + 1], m) == CyclicSum(v[..k], m) + (v[k] as int) * (m[k % |m|] as int)
  {
    assert Weighted(v[..k + 1], m)[..k] == Weighted(v[..k], m);
  }

  /** Extending the input by one item appends that item's truncated product to the outputs. */
  lemma CyclicProductsStep(v: seq<Int32>, m: seq<Int32>, k: nat)
    requires |m| > 0 && k < |v|
    ensures CyclicProducts(v[..k + 1], m)
         == CyclicProducts(v[..k], m) + [Wrap32((v[k] as int) * (m[k % |m|] as int))]
  {
  }

  /** Example: with [m0, m1] the modifiers are reused cyclically. */
  lemma CyclicSumOfThree(v0: Int32, v1: Int32, v2: Int32, m0: Int32, m1: Int32)
    ensures CyclicSum([v0, v1, v2], [m0, m1]) == (v0 as int) * m0 + (v1 as int) * m1 + (v2 as int) * m0
  {
    var a, b, c := (v0 as int) * m0, (v1 as int) * m1, (v2 as int) * m0;
    assert Weighted([v0, v1, v2], [m0, m1]) == [a, b, c];
    assert [a, b, c][..2] == [a, b] && [a, b][..1] == [a] && [a][..0] == [];
    assert Sum([a]) == a;
    assert Sum([a, b]) == a + b;
  }

  /** The single modifier 1 leaves every item unchanged, so the fold is the plain sum. */
  lemma CyclicSumOfOne(v: seq<Int32>)
    ensures CyclicSum(v, [1]) == Sum(v)
  {
    assert Weighted(v, [1]) == v;
  }

  /** Adding up 32-bit-truncated terms with 32-bit addition gives the truncated exact sum. */
  lemma {:induction false} SumOfWrapped(s: seq<int>, w: seq<Int32>)
    requires |w| == |s|
    requires forall i :: 0 <= i < |s| ==> w[i] == Wrap32(s[i])
    ensures Wrap32(Sum(w)) == Wrap32(Sum(s))
  {
    if s != [] {
      var n := |s| - 1;
      SumOfWrapped(s[..n], w[..n]);
      calc {
        Wrap32(Sum(w));
        Wrap32(Sum(w[..n]) + Wrap32(s[n]));
        { WrapAdd(Sum(w[..n]), s[n]); }
        Wrap32(s[n] + Sum(w[..n]));
        { WrapAdd(s[n], Sum(w[..n])); }
        Wrap32(s[n] + Wrap32(Sum(s[..n])));
        { WrapAdd(s[n], Sum(s[..n])); }
        Wrap32(Sum(s));
      }
    }
  }

  /**
   * Adding up the bidirectional method's output items with `int` addition
   * yields the client-stream fold of the same input and modifiers.
   */
  lemma ProductsSumToFold(v: seq<Int32>, m: seq<Int32>)
    requires |m| > 0 || |v| == 0
    ensures Wrap32(Sum(CyclicProducts(v, m))) == Wrap32(CyclicSum(v, m))
  {
    SumOfWrapped(Weighted(v, m), CyclicProducts(v, m));
  }
}
