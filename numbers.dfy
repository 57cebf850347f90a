/** Sums and means of real numbers, as Python's `sum(xs) / len(xs)` and numpy's `average` compute them. */
module Numbers {

  function Sum(xs: seq<real>): real {
    if |xs| == 0 then 0.0 else Sum(xs[..|xs| - 1]) + xs[|xs| - 1]
  }

  /** `sum(xs) / len(xs) if xs else 0`. */
  function Mean(xs: seq<real>): real {
    if |xs| == 0 then 0.0 else Sum(xs) / (|xs| as real)
  }

  lemma {:induction false} SumWithin(xs: seq<real>, lo: real, hi: real)
    requires forall i :: 0 <= i < |xs| ==> lo <= xs[i] <= hi
    ensures lo * (|xs| as real) <= Sum(xs) <= hi * (|xs| as real)
  {
    if |xs| > 0 {
      var init := xs[..|xs| - 1];
      SumWithin(init, lo, hi);
      assert lo * (|xs| as real) == lo * (|init| as real) + lo;
      assert hi * (|xs| as real) == hi * (|init| as real) + hi;
    }
  }

  /** A mean lies between the smallest and the largest value averaged. */
  lemma MeanWithin(xs: seq<real>, lo: real, hi: real)
    requires |xs| > 0
    requires forall i :: 0 <= i < |xs| ==> lo <= xs[i] <= hi
    ensures lo <= Mean(xs) <= hi
  {
    SumWithin(xs, lo, hi);
    var n := |xs| as real;
    assert Mean(xs) * n == Sum(xs);
  }

  /** Averaging equal values gives that value. */
  lemma MeanOfEqual(xs: seq<real>, v: real)
    requires |xs| > 0 && forall i :: 0 <= i < |xs| ==> xs[i] == v
    ensures Mean(xs) == v
  {
    MeanWithin(xs, v, v);
  }

  /** The parities of the two numbers after an even one. */
  lemma EvenNext(i: int)
    requires i % 2 == 0
    ensures (i + 1) % 2 == 1 && (i + 2) % 2 == 0
  {
  }

  /** The start `k * m` of row k is not negative. */
  lemma MulNonNeg(k: nat, m: nat)
    ensures 0 <= k * m
  {
  }

  /** One more row adds `m`. */
  lemma MulStep(k: nat, m: nat)
    ensures k * m + m == (k + 1) * m
  {
  }

  /** Position `s * m + p` of an `n`-by-`m` row-major layout lies inside it. */
  lemma Offset(s: nat, p: nat, n: nat, m: nat)
    requires s < n && p < m
    ensures s * m + p < n * m
  {
    MulStep(s, m);
    assert (s + 1) * m <= n * m;
  }
}
