/** Sums, means and variances of sequences of reals, the arithmetic shared by the
    issue trackers, the effectiveness log and the math helpers. Index 0 is the
    oldest value; sums peel off the newest value so that appending is cheap. */
module SeqStats {

  function Sum(s: seq<real>): real
    decreases |s|
  {
    if |s| == 0 then 0.0 else Sum(s[..|s| - 1]) + s[|s| - 1]
  }

  lemma SumAppend(s: seq<real>, x: real)
    ensures Sum(s + [x]) == Sum(s) + x
  {
    assert (s + [x])[..|s|] == s;
  }

  lemma {:induction false} SumConcat(a: seq<real>, b: seq<real>)
    ensures Sum(a + b) == Sum(a) + Sum(b)
    decreases |b|
  {
    if |b| == 0 {
      assert a + b == a;
    } else {
      var b' := b[..|b| - 1];
      assert a + b == (a + b') + [b[|b| - 1]];
      SumAppend(a + b', b[|b| - 1]);
      SumConcat(a, b');
      assert b == b' + [b[|b| - 1]];
      SumAppend(b', b[|b| - 1]);
    }
  }

  lemma SumFirst(s: seq<real>)
    requires |s| > 0
    ensures Sum(s) == s[0] + Sum(s[1..])
  {
    assert s == [s[0]] + s[1..];
    SumConcat([s[0]], s[1..]);
    assert [s[0]] == [] + [s[0]];
    SumAppend([], s[0]);
  }

  /** Every element of `s` lies in [lo, hi]. */
  predicate AllWithin(s: seq<real>, lo: real, hi: real)
  {
    forall i :: 0 <= i < |s| ==> lo <= s[i] <= hi
  }

  lemma {:induction false} SumBounds(s: seq<real>, lo: real, hi: real)
    requires AllWithin(s, lo, hi)
    ensures lo * |s| as real <= Sum(s) <= hi * |s| as real
    decreases |s|
  {
    if |s| > 0 {
      var s' := s[..|s| - 1];
      assert AllWithin(s', lo, hi);
      SumBounds(s', lo, hi);
      assert lo * |s| as real == lo * |s'| as real + lo;
      assert hi * |s| as real == hi * |s'| as real + hi;
    }
  }

  /** The arithmetic mean, or 0 for an empty sequence. */
  function Mean(s: seq<real>): real
  {
    if |s| == 0 then 0.0 else Sum(s) / |s| as real
  }

  lemma MeanBounds(s: seq<real>, lo: real, hi: real)
    requires |s| > 0 && AllWithin(s, lo, hi)
    ensures lo <= Mean(s) <= hi
  {
    SumBounds(s, lo, hi);
    var n := |s| as real;
    assert Mean(s) * n == Sum(s);
  }

  /** A sequence all of whose elements are `c` has mean `c`. */
  lemma MeanOfConstant(s: seq<real>, c: real)
    requires |s| > 0 && AllWithin(s, c, c)
    ensures Mean(s) == c
  {
    MeanBounds(s, c, c);
  }

  lemma ProductPositive(a: real, b: real)
    requires a > 0.0 && b > 0.0
    ensures a * b > 0.0
  {
  }

  lemma ProductNonNegative(a: real, b: real)
    requires a >= 0.0 && b >= 0.0
    ensures a * b >= 0.0
  {
    if a > 0.0 && b > 0.0 {
      ProductPositive(a, b);
    }
  }

  /** Multiplying by a positive number keeps the comparison. */
  lemma AboveIffScaledAbove(x: real, g: real, c: real)
    requires g > 0.0
    ensures x > c <==> x * g > c * g
  {
    if x > c {
      ProductPositive(x - c, g);
      assert (x - c) * g == x * g - c * g;
    } else if x < c {
      ProductPositive(c - x, g);
      assert (c - x) * g == c * g - x * g;
    }
  }

  /** x / d above k is x above k d, for a positive divisor. */
  lemma QuotientAbove(x: real, d: real, k: real)
    requires d > 0.0
    ensures x / d > k <==> x > k * d
  {
    var q := x / d;
    assert q * d == x;
    AboveIffScaledAbove(q, d, k);
  }

  /** A non-negative value over a negative one is never positive. */
  lemma QuotientOfNegative(x: real, d: real)
    requires x >= 0.0 && d < 0.0
    ensures x / d <= 0.0
  {
    var q := x / d;
    assert q * d == x;
    if q > 0.0 {
      ProductPositive(q, -d);
      assert false;
    }
  }

  lemma SquareOfPositive(x: real)
    requires x > 0.0
    ensures Sq(x) > 0.0
  {
    calc {
      Sq(x);
      x * x;
    > { ProductPositive(x, x); }
      0.0;
    }
  }

  function Sq(x: real): real { x * x }

  lemma Square(x: real)
    ensures Sq(x) >= 0.0
    ensures x != 0.0 ==> Sq(x) > 0.0
  {
    if x < 0.0 {
      assert Sq(x) == Sq(-x);
      SquareOfPositive(-x);
    } else if x > 0.0 {
      SquareOfPositive(x);
    }
  }

  /** Sum of squared deviations from `c`. */
  function SquaredDeviation(s: seq<real>, c: real): (d: real)
    ensures d >= 0.0
    decreases |s|
  {
    if |s| == 0 then 0.0
    else
      Square(s[|s| - 1] - c);
      SquaredDeviation(s[..|s| - 1], c) + Sq(s[|s| - 1] - c)
  }

  /** Sum of squared deviations is zero exactly when every element equals `c`. */
  lemma {:induction false} SquaredDeviationZero(s: seq<real>, c: real)
    ensures SquaredDeviation(s, c) == 0.0 <==> AllWithin(s, c, c)
    decreases |s|
  {
    if |s| > 0 {
      var s' := s[..|s| - 1];
      var x := s[|s| - 1];
      SquaredDeviationZero(s', c);
      if AllWithin(s, c, c) {
        assert AllWithin(s', c, c);
        assert x == c;
      }
      if SquaredDeviation(s, c) == 0.0 {
        Square(x - c);
        assert SquaredDeviation(s, c) == SquaredDeviation(s', c) + Sq(x - c);
        forall i | 0 <= i < |s| ensures c <= s[i] <= c {
          if i < |s| - 1 { assert s[i] == s'[i]; }
        }
      }
    }
  }

  /** Sample variance (divisor n - 1), or 0 with fewer than two values. */
  function SampleVariance(s: seq<real>): (v: real)
    ensures v >= 0.0
    ensures v == 0.0 <==> (|s| < 2 || AllWithin(s, Mean(s), Mean(s)))
  {
    SquaredDeviationZero(s, Mean(s));
    if |s| < 2 then 0.0 else SquaredDeviation(s, Mean(s)) / (|s| - 1) as real
  }

  /** Population variance about a given centre (divisor n), or 0 with fewer than two values. */
  function PopulationVariance(s: seq<real>, centre: real): (v: real)
    ensures v >= 0.0
  {
    if |s| < 2 then 0.0 else SquaredDeviation(s, centre) / |s| as real
  }
}
