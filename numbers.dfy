/** Arithmetic shared by the store slices and the chart helpers: clamping,
    sums and extrema of lists of reals. */
module Numbers {

  function Min(a: real, b: real): real {
    if a <= b then a else b
  }

  function Max(a: real, b: real): real {
    if a >= b then a else b
  }

  /** `Math.max(0, Math.min(1, x))`: values inside [0, 1] are kept and
      values outside are pulled to the nearer end. */
  function Clamp01(x: real): (r: real)
    ensures 0.0 <= r <= 1.0
    ensures 0.0 <= x <= 1.0 ==> r == x
    ensures x < 0.0 ==> r == 0.0
    ensures x > 1.0 ==> r == 1.0
  {
    Max(0.0, Min(1.0, x))
  }

  /** Clamping twice is clamping once. */
  lemma Clamp01Idempotent(x: real)
    ensures Clamp01(Clamp01(x)) == Clamp01(x)
  {
  }

  /** `reduce((a, b) => a + b, 0)`: the sum, added from left to right. */
  function Sum(s: seq<real>): real {
    if s == [] then 0.0 else Sum(s[..|s| - 1]) + s[|s| - 1]
  }

  /** Summing a list of non-negative numbers gives a non-negative number. */
  lemma {:induction false} SumNonNegative(s: seq<real>)
    requires forall i :: 0 <= i < |s| ==> s[i] >= 0.0
    ensures Sum(s) >= 0.0
  {
    if s != [] {
      SumNonNegative(s[..|s| - 1]);
    }
  }

  /** `Math.min(...s)` of a non-empty list. */
  function MinOf(s: seq<real>): (m: real)
    requires |s| > 0
    ensures forall i :: 0 <= i < |s| ==> m <= s[i]
  {
    if |s| == 1 then s[0] else Min(MinOf(s[..|s| - 1]), s[|s| - 1])
  }

  /** `Math.max(...s)` of a non-empty list. */
  function MaxOf(s: seq<real>): (m: real)
    requires |s| > 0
    ensures forall i :: 0 <= i < |s| ==> s[i] <= m
  {
    if |s| == 1 then s[0] else Max(MaxOf(s[..|s| - 1]), s[|s| - 1])
  }

  /** `Math.min` returns one of its arguments. */
  lemma {:induction false} MinOfAttained(s: seq<real>)
    requires |s| > 0
    ensures exists i :: 0 <= i < |s| && MinOf(s) == s[i]
  {
    if |s| > 1 {
      var init := s[..|s| - 1];
      MinOfAttained(init);
      var i :| 0 <= i < |init| && MinOf(init) == init[i];
      if MinOf(s) != s[|s| - 1] {
        assert MinOf(s) == s[i];
      }
    } else {
      assert MinOf(s) == s[0];
    }
  }

  /** `Math.max` returns one of its arguments. */
  lemma {:induction false} MaxOfAttained(s: seq<real>)
    requires |s| > 0
    ensures exists i :: 0 <= i < |s| && MaxOf(s) == s[i]
  {
    if |s| > 1 {
      var init := s[..|s| - 1];
      MaxOfAttained(init);
      var i :| 0 <= i < |init| && MaxOf(init) == init[i];
      if MaxOf(s) != s[|s| - 1] {
        assert MaxOf(s) == s[i];
      }
    } else {
      assert MaxOf(s) == s[0];
    }
  }

  lemma ScaleMonotone(n: real, a: real, b: real)
    requires n >= 0.0 && a <= b
    ensures n * a <= n * b
  {
    assert n * b - n * a == n * (b - a);
  }

  /** Dividing both sides of `n * lo <= x` by a positive `n`. */
  lemma DivideBound(n: real, lo: real, x: real, hi: real)
    requires n > 0.0 && n * lo <= x <= n * hi
    ensures lo <= x / n <= hi
  {
    assert x / n - lo == (x - n * lo) / n;
    assert hi - x / n == (n * hi - x) / n;
  }

  /** One more element, at least `m`, on a sum of `n` elements each at least `m`. */
  lemma ExtendLowerBound(n: real, m: real, lo: real, sum: real, last: real)
    requires n >= 0.0 && m <= lo && n * lo <= sum && m <= last
    ensures (n + 1.0) * m <= sum + last
  {
    ScaleMonotone(n, m, lo);
  }

  /** One more element, at most `m`, on a sum of `n` elements each at most `m`. */
  lemma ExtendUpperBound(n: real, m: real, hi: real, sum: real, last: real)
    requires n >= 0.0 && hi <= m && sum <= n * hi && last <= m
    ensures sum + last <= (n + 1.0) * m
  {
    ScaleMonotone(n, hi, m);
  }

  /** n copies of the minimum are at most the sum. */
  lemma {:induction false} SumAtLeastMin(s: seq<real>)
    requires |s| > 0
    ensures |s| as real * MinOf(s) <= Sum(s)
  {
    if |s| == 1 {
      assert s[..0] == [];
    } else {
      var init := s[..|s| - 1];
      SumAtLeastMin(init);
      ExtendLowerBound(|init| as real, MinOf(s), MinOf(init), Sum(init), s[|s| - 1]);
      assert |s| as real == |init| as real + 1.0;
    }
  }

  /** n copies of the maximum are at least the sum. */
  lemma {:induction false} SumAtMostMax(s: seq<real>)
    requires |s| > 0
    ensures Sum(s) <= |s| as real * MaxOf(s)
  {
    if |s| == 1 {
      assert s[..0] == [];
    } else {
      var init := s[..|s| - 1];
      SumAtMostMax(init);
      ExtendUpperBound(|init| as real, MaxOf(s), MaxOf(init), Sum(init), s[|s| - 1]);
      assert |s| as real == |init| as real + 1.0;
    }
  }

  /** The mean of a non-empty list lies between its minimum and maximum. */
  lemma MeanBetweenExtremes(s: seq<real>)
    requires |s| > 0
    ensures MinOf(s) <= Sum(s) / |s| as real <= MaxOf(s)
  {
    SumAtLeastMin(s);
    SumAtMostMax(s);
    DivideBound(|s| as real, MinOf(s), Sum(s), MaxOf(s));
  }
}
