/** The numeric helpers of the analysis and rendering code: normalising into
    [0, 1], the 95th percentile of a sample, and an exponentially smoothed
    average. Java's `float` is modelled by `real`. */
module MathUtils {
  import opened Basics
  import opened SeqStats

  // ---------------------------------------------------------------------------
  // normalize

  /** normalize: where `value` lies between `min` and `max`, as a fraction
      clamped into [0, 1]; 0 when the range is empty or inverted. */
  function Normalize(value: real, min: real, max: real): (r: real)
    ensures max <= min ==> r == 0.0
    ensures 0.0 <= r <= 1.0
    ensures max > min && value <= min ==> r == 0.0
    ensures max > min && value >= max ==> r == 1.0
    ensures max > min && min <= value <= max ==> r * (max - min) == value - min
  {
    if max <= min then 0.0
    else
      var q := Fraction(value, min, max);
      QuotientBounds(value - min, max - min);
      MaxR(0.0, MinR(1.0, q))
  }

  /** How far `value` lies along the range from `min` to `max`, unclamped. */
  function Fraction(value: real, min: real, max: real): real
    requires max > min
  {
    (value - min) / (max - min)
  }

  /** x / d against 0 and 1 for a positive d. */
  lemma QuotientBounds(x: real, d: real)
    requires d > 0.0
    ensures x <= 0.0 ==> x / d <= 0.0
    ensures x >= d ==> x / d >= 1.0
    ensures 0.0 <= x <= d ==> 0.0 <= x / d <= 1.0
  {
    var q := x / d;
    assert q * d == x;
    assert 1.0 * d == d && 0.0 * d == 0.0;
    AboveIffScaledAbove(q, d, 0.0);
    AboveIffScaledAbove(q, d, 1.0);
    AboveIffScaledAbove(0.0, d, q);
    AboveIffScaledAbove(1.0, d, q);
    assert 1.0 > q <==> d > x;
  }

  /** Dividing by a non-zero amount and multiplying back gives the value. */
  lemma DivMul(x: real, d: real)
    requires d != 0.0
    ensures (x / d) * d == x
  {
  }

  /** Normalising does not change the order of two values. */
  lemma NormalizeMonotone(a: real, b: real, min: real, max: real)
    requires a <= b
    ensures Normalize(a, min, max) <= Normalize(b, min, max)
  {
    if max > min {
      var qa, qb := Fraction(a, min, max), Fraction(b, min, max);
      assert qa <= qb by { FractionMonotone(a, b, min, max); }
      NormalizeClamps(a, min, max);
      NormalizeClamps(b, min, max);
    }
  }

  /** Over a proper range, normalising clamps the fraction into [0, 1]. */
  lemma NormalizeClamps(v: real, min: real, max: real)
    requires max > min
    ensures Normalize(v, min, max) == MaxR(0.0, MinR(1.0, Fraction(v, min, max)))
  {
  }

  lemma FractionMonotone(a: real, b: real, min: real, max: real)
    requires a <= b && max > min
    ensures Fraction(a, min, max) <= Fraction(b, min, max)
  {
    var d := max - min;
    var qa, qb := (a - min) / d, (b - min) / d;
    assert qa * d == a - min by { DivMul(a - min, d); }
    assert qb * d == b - min by { DivMul(b - min, d); }
    AboveIffScaledAbove(qa, d, qb);
  }

  /** Normalising the point a fraction t of the way from min to max gives t. */
  lemma NormalizeInverts(t: real, min: real, max: real)
    requires max > min && 0.0 <= t <= 1.0
    ensures Normalize(min + t * (max - min), min, max) == t
  {
    var d := max - min;
    var v := min + t * d;
    NormalizeClamps(v, min, max);
    assert Fraction(v, min, max) == t by {
      assert v - min == t * d;
      MulDiv(t, d);
    }
  }

  /** Multiplying by a non-zero amount and dividing back gives the value. */
  lemma MulDiv(x: real, d: real)
    requires d != 0.0
    ensures (x * d) / d == x
  {
  }

  // ---------------------------------------------------------------------------
  // calculate95thPercentile

  predicate Sorted(s: seq<real>)
  {
    forall i, j :: 0 <= i < j < |s| ==> s[i] <= s[j]
  }

  /** How many values lie strictly below y, and how many at most at y. */
  function CountBelow(s: seq<real>, y: real): nat
  {
    if |s| == 0 then 0 else (if s[0] < y then 1 else 0) + CountBelow(s[1..], y)
  }

  function CountAtMost(s: seq<real>, y: real): nat
  {
    if |s| == 0 then 0 else (if s[0] <= y then 1 else 0) + CountAtMost(s[1..], y)
  }

  /** Inserting into an ascending sequence keeps it ascending and adds exactly
      the element. */
  function InsertAsc(x: real, s: seq<real>): (r: seq<real>)
    requires Sorted(s)
    ensures Sorted(r)
    ensures multiset(r) == multiset(s) + multiset{x}
    ensures |r| == |s| + 1
    ensures r[0] == if |s| == 0 then x else MinR(x, s[0])
  {
    if |s| == 0 || x <= s[0] then
      ConsSorted(x, s);
      [x] + s
    else
      var rest := InsertAsc(x, s[1..]);
      assert s == [s[0]] + s[1..];
      ConsSorted(s[0], rest);
      [s[0]] + rest
  }

  /** An element no greater than the head of an ascending sequence can go in
      front of it. */
  lemma ConsSorted(h: real, s: seq<real>)
    requires Sorted(s) && (|s| > 0 ==> h <= s[0])
    ensures Sorted([h] + s)
  {
  }

  /** Inserting x adds one to the counts that x falls into. */
  lemma {:induction false} InsertCounts(x: real, s: seq<real>, y: real)
    requires Sorted(s)
    ensures CountBelow(InsertAsc(x, s), y) == CountBelow(s, y) + (if x < y then 1 else 0)
    ensures CountAtMost(InsertAsc(x, s), y) == CountAtMost(s, y) + (if x <= y then 1 else 0)
  {
    var r := InsertAsc(x, s);
    if |s| == 0 || x <= s[0] {
      assert r[1..] == s;
    } else {
      InsertCounts(x, s[1..], y);
      assert r[1..] == InsertAsc(x, s[1..]);
    }
  }

  /** `Arrays.sort` on the copy: an ascending permutation of the input. */
  function SortAsc(s: seq<real>): (r: seq<real>)
    ensures Sorted(r)
    ensures multiset(r) == multiset(s)
    ensures |r| == |s|
  {
    if |s| == 0 then []
    else
      assert s == [s[0]] + s[1..];
      InsertAsc(s[0], SortAsc(s[1..]))
  }

  /** Sorting keeps the count of values below and at most at any y. */
  lemma {:induction false} SortCounts(s: seq<real>, y: real)
    ensures CountBelow(SortAsc(s), y) == CountBelow(s, y)
    ensures CountAtMost(SortAsc(s), y) == CountAtMost(s, y)
  {
    if |s| > 0 {
      SortCounts(s[1..], y);
      InsertCounts(s[0], SortAsc(s[1..]), y);
    }
  }

  /** The index the percentile reads: the length times 0.95, truncated, and
      never past the last element. */
  function PercentileIndex(n: nat): (k: nat)
    requires n > 0
    ensures k < n
  {
    Min(n * 95 / 100, n - 1)
  }

  /** calculate95thPercentile: 0 for no values; otherwise the value at the
      percentile index of a sorted copy. That value is one of the inputs, at
      most the index of the inputs lie below it, and more than the index lie
      at or below it: it is the order statistic of that rank. */
  function Percentile95(values: seq<real>): (r: real)
    ensures |values| == 0 ==> r == 0.0
    ensures |values| > 0 ==> r in values
    ensures |values| > 0 ==> CountBelow(values, r) <= PercentileIndex(|values|) < CountAtMost(values, r)
  {
    if |values| == 0 then 0.0
    else
      var sorted := SortAsc(values);
      var k := PercentileIndex(|values|);
      assert sorted[k] in multiset(sorted);
      SortedRank(sorted, k);
      SortCounts(values, sorted[k]);
      sorted[k]
  }

  /** In an ascending sequence, at most k values lie below the k-th and more
      than k lie at or below it. */
  lemma {:induction false} SortedRank(t: seq<real>, k: nat)
    requires Sorted(t) && k < |t|
    ensures CountBelow(t, t[k]) <= k < CountAtMost(t, t[k])
  {
    if k == 0 {
      NoneBelow(t[1..], t[0]);
    } else {
      SortedRank(t[1..], k - 1);
      assert t[1..][k - 1] == t[k];
    }
  }

  lemma {:induction false} NoneBelow(s: seq<real>, y: real)
    requires forall i :: 0 <= i < |s| ==> y <= s[i]
    ensures CountBelow(s, y) == 0
  {
    if |s| > 0 {
      NoneBelow(s[1..], y);
    }
  }

  /** The clamp to the last index never binds: 0.95 n truncated is already
      below n. */
  lemma PercentileIndexIsTruncatedProduct(n: nat)
    requires n > 0
    ensures PercentileIndex(n) == n * 95 / 100
  {
  }

  /** At least 95 % of the values are at most the percentile. */
  lemma AtLeastNinetyFivePercentBelow(values: seq<real>)
    requires |values| > 0
    ensures 100 * CountAtMost(values, Percentile95(values)) >= 95 * |values|
  {
    var n := |values|;
    var k := n * 95 / 100;
    assert PercentileIndex(n) == k;
    assert 100 * (k + 1) >= 95 * n;
  }

  // ---------------------------------------------------------------------------
  // calculateSmoothedAverage

  /** The exponentially weighted average of a non-empty sequence, folded from
      the first value: each later value gets weight f and the running result
      weight 1 - f. */
  function Smoothed(values: seq<real>, f: real): real
    requires |values| > 0
  {
    if |values| == 1 then values[0]
    else Smoothed(values[..|values| - 1], f) * (1.0 - f) + values[|values| - 1] * f
  }

  /** The least and the greatest value of a non-empty sequence. */
  function Minimum(s: seq<real>): (m: real)
    requires |s| > 0
    ensures m in s && forall i :: 0 <= i < |s| ==> m <= s[i]
  {
    if |s| == 1 then s[0] else MinR(s[0], Minimum(s[1..]))
  }

  function Maximum(s: seq<real>): (m: real)
    requires |s| > 0
    ensures m in s && forall i :: 0 <= i < |s| ==> s[i] <= m
  {
    if |s| == 1 then s[0] else MaxR(s[0], Maximum(s[1..]))
  }

  /** calculateSmoothedAverage: 0 for no values; otherwise the running result
      starts at the first value and each later value is blended in with weight
      `smoothingFactor`. A single value or a factor of 0 gives the first value,
      a factor of 1 the last, and a factor in [0, 1] stays between the least
      and the greatest value. */
  method SmoothedAverage(values: seq<real>, smoothingFactor: real) returns (r: real)
    ensures |values| == 0 ==> r == 0.0
    ensures |values| > 0 ==> r == Smoothed(values, smoothingFactor)
    ensures |values| == 1 || (|values| > 0 && smoothingFactor == 0.0) ==> r == values[0]
    ensures |values| > 0 && smoothingFactor == 1.0 ==> r == values[|values| - 1]
    ensures |values| > 0 && 0.0 <= smoothingFactor <= 1.0 ==> Minimum(values) <= r <= Maximum(values)
  {
    if |values| == 0 {
      return 0.0;
    }
    r := values[0];
    var i := 1;
    while i < |values|
      invariant 1 <= i <= |values|
      invariant r == Smoothed(values[..i], smoothingFactor)
    {
      assert values[..i + 1][..i] == values[..i];
      r := r * (1.0 - smoothingFactor) + values[i] * smoothingFactor;
      i := i + 1;
    }
    assert values[..i] == values;
    if smoothingFactor == 0.0 {
      SmoothedWithFactorZero(values);
    }
    if smoothingFactor == 1.0 {
      SmoothedWithFactorOne(values);
    }
    if 0.0 <= smoothingFactor <= 1.0 {
      SmoothedWithin(values, smoothingFactor, Minimum(values), Maximum(values));
    }
  }

  /** With factor 0 the later values are ignored. */
  lemma {:induction false} SmoothedWithFactorZero(values: seq<real>)
    requires |values| > 0
    ensures Smoothed(values, 0.0) == values[0]
  {
    if |values| > 1 {
      var init := values[..|values| - 1];
      SmoothedWithFactorZero(init);
      assert init[0] == values[0];
    }
  }

  /** With factor 1 only the last value counts. */
  lemma SmoothedWithFactorOne(values: seq<real>)
    requires |values| > 0
    ensures Smoothed(values, 1.0) == values[|values| - 1]
  {
  }

  /** Values in [lo, hi] and a factor in [0, 1] keep the average in [lo, hi]. */
  lemma {:induction false} SmoothedWithin(values: seq<real>, f: real, lo: real, hi: real)
    requires |values| > 0 && 0.0 <= f <= 1.0
    requires forall i :: 0 <= i < |values| ==> lo <= values[i] <= hi
    ensures lo <= Smoothed(values, f) <= hi
  {
    if |values| > 1 {
      var init := values[..|values| - 1];
      assert forall i :: 0 <= i < |init| ==> init[i] == values[i];
      SmoothedWithin(init, f, lo, hi);
      Blend(Smoothed(init, f), values[|values| - 1], f, lo, hi);
    }
  }

  /** A blend a (1 - f) + b f with f in [0, 1] lies between any bounds of a and b. */
  lemma Blend(a: real, b: real, f: real, lo: real, hi: real)
    requires lo <= a <= hi && lo <= b <= hi && 0.0 <= f <= 1.0
    ensures lo <= a * (1.0 - f) + b * f <= hi
  {
    ProductNonNegative(a - lo, 1.0 - f);
    ProductNonNegative(b - lo, f);
    assert a * (1.0 - f) + b * f - lo == (a - lo) * (1.0 - f) + (b - lo) * f;
    ProductNonNegative(hi - a, 1.0 - f);
    ProductNonNegative(hi - b, f);
    assert hi - (a * (1.0 - f) + b * f) == (hi - a) * (1.0 - f) + (hi - b) * f;
  }
}
