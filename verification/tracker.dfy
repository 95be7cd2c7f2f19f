/** Per-issue history: a bounded buffer of measured values with its statistics,
    plus occurrence and resolution bookkeeping. */
module Tracker {
  import opened Basics
  import opened SeqStats
  import RB = RingBuffer
  import Issues

  /** DATA_BUFFER_SIZE and TIMESTAMP_BUFFER_SIZE. */
  const DataBufferSize: nat := 1000
  const TimestampBufferSize: nat := 500

  datatype IssueTracker = IssueTracker(
    issue: Issues.PerformanceIssue,
    data: seq<real>,
    occurrenceTimes: seq<int>,
    resolutionTimes: seq<int>,
    totalOccurrences: nat,
    totalDuration: int,
    firstOccurrence: int,
    lastOccurrence: int,
    lastResolution: int)

  /** The buffers respect their capacities, the accumulated duration is never
      negative, and the occurrence buffer is empty exactly when nothing occurred. */
  predicate Valid(t: IssueTracker)
  {
    && |t.data| <= DataBufferSize
    && |t.occurrenceTimes| <= TimestampBufferSize
    && |t.resolutionTimes| <= TimestampBufferSize
    && t.totalDuration >= 0
    && (|t.occurrenceTimes| == 0 <==> t.totalOccurrences == 0)
  }

  /** A fresh tracker: empty buffers, zero counters and timestamps. */
  function NewTracker(issue: Issues.PerformanceIssue): (t: IssueTracker)
    ensures Valid(t) && t.issue == issue
    ensures t.data == [] && t.occurrenceTimes == [] && t.resolutionTimes == []
    ensures t.totalOccurrences == 0 && t.totalDuration == 0
    ensures t.firstOccurrence == 0 && t.lastOccurrence == 0 && t.lastResolution == 0
  {
    IssueTracker(issue, [], [], [], 0, 0, 0, 0, 0)
  }

  /** reset: back to the state of a fresh tracker for the same issue. */
  function Reset(t: IssueTracker): (r: IssueTracker)
    ensures r == NewTracker(t.issue)
    ensures !IsCurrentlyActive(r) && OccurrenceFrequency(r) == 0.0 && AverageDuration(r) == 0.0
  {
    t.(data := [], occurrenceTimes := [], resolutionTimes := [],
       totalOccurrences := 0, totalDuration := 0,
       firstOccurrence := 0, lastOccurrence := 0, lastResolution := 0)
  }

  /** addDataPoint: the value buffer becomes the newest 1000 values of the old
      buffer followed by `v`; nothing else changes. */
  function AddDataPoint(t: IssueTracker, v: real): (r: IssueTracker)
    requires Valid(t)
    ensures Valid(r)
    ensures r.data == RB.Newest(t.data + [v], DataBufferSize)
    ensures |r.data| == Min(|t.data| + 1, DataBufferSize) && r.data[|r.data| - 1] == v
    ensures r == t.(data := r.data)
  {
    t.(data := RB.Push(t.data, DataBufferSize, v))
  }

  /** recordOccurrence: one more occurrence, `ts` becomes the last occurrence, and
      the first occurrence is set only while it is still unset (0). */
  function RecordOccurrence(t: IssueTracker, ts: int): (r: IssueTracker)
    requires Valid(t)
    ensures Valid(r)
    ensures r.totalOccurrences == t.totalOccurrences + 1
    ensures r.lastOccurrence == ts
    ensures t.firstOccurrence != 0 ==> r.firstOccurrence == t.firstOccurrence
    ensures t.firstOccurrence == 0 ==> r.firstOccurrence == ts
    ensures r.occurrenceTimes == RB.Newest(t.occurrenceTimes + [ts], TimestampBufferSize)
    ensures r == t.(occurrenceTimes := r.occurrenceTimes, totalOccurrences := r.totalOccurrences,
                    firstOccurrence := r.firstOccurrence, lastOccurrence := ts)
  {
    t.(occurrenceTimes := RB.Push(t.occurrenceTimes, TimestampBufferSize, ts),
       totalOccurrences := t.totalOccurrences + 1,
       firstOccurrence := if t.firstOccurrence == 0 then ts else t.firstOccurrence,
       lastOccurrence := ts)
  }

  /** recordResolution: `ts` becomes the last resolution; the time since the last
      occurrence is added to the total duration exactly when there was an
      occurrence (> 0) strictly before `ts`, so the total never decreases. */
  function RecordResolution(t: IssueTracker, ts: int): (r: IssueTracker)
    requires Valid(t)
    ensures Valid(r)
    ensures r.lastResolution == ts
    ensures r.totalDuration >= t.totalDuration
    ensures r.totalDuration > t.totalDuration <==> (t.lastOccurrence > 0 && ts > t.lastOccurrence)
    ensures r.totalDuration > t.totalDuration ==> r.totalDuration == t.totalDuration + (ts - t.lastOccurrence)
    ensures r.resolutionTimes == RB.Newest(t.resolutionTimes + [ts], TimestampBufferSize)
    ensures r == t.(resolutionTimes := r.resolutionTimes, lastResolution := ts, totalDuration := r.totalDuration)
  {
    var duration := if t.lastOccurrence > 0 && ts > t.lastOccurrence then ts - t.lastOccurrence else 0;
    t.(resolutionTimes := RB.Push(t.resolutionTimes, TimestampBufferSize, ts),
       lastResolution := ts,
       totalDuration := t.totalDuration + duration)
  }

  /** isCurrentlyActive: the last occurrence is later than the last resolution. */
  predicate IsCurrentlyActive(t: IssueTracker)
  {
    t.lastOccurrence > t.lastResolution
  }

  /** A resolution no earlier than the last occurrence ends the issue; an
      occurrence later than the last resolution starts it. */
  lemma ResolutionDeactivates(t: IssueTracker, ts: int)
    requires Valid(t)
    ensures ts >= t.lastOccurrence ==> !IsCurrentlyActive(RecordResolution(t, ts))
    ensures ts > t.lastResolution ==> IsCurrentlyActive(RecordOccurrence(t, ts))
    ensures IsCurrentlyActive(RecordResolution(t, ts)) <==> t.lastOccurrence > ts
  {
  }

  /** getOccurrenceFrequency: occurrences per minute over the span between the first
      and last occurrence; 0 with no occurrence, an unset first occurrence or a
      non-positive span. */
  function OccurrenceFrequency(t: IssueTracker): (f: real)
    ensures f >= 0.0
    ensures f > 0.0 <==> (|t.occurrenceTimes| > 0 && t.firstOccurrence != 0
                          && t.lastOccurrence > t.firstOccurrence && t.totalOccurrences > 0)
    ensures f > 0.0 ==> f * (t.lastOccurrence - t.firstOccurrence) as real == t.totalOccurrences as real * 60000.0
  {
    if |t.occurrenceTimes| == 0 || t.firstOccurrence == 0 then 0.0
    else
      var span := t.lastOccurrence - t.firstOccurrence;
      if span <= 0 then 0.0
      else
        var minutes := span as real / (1000.0 * 60.0);
        t.totalOccurrences as real / minutes
  }

  /** getAverageDuration: total duration shared out over the occurrences, 0 with none. */
  function AverageDuration(t: IssueTracker): (d: real)
    ensures t.totalOccurrences == 0 ==> d == 0.0
    ensures t.totalOccurrences > 0 ==> d * t.totalOccurrences as real == t.totalDuration as real
    ensures Valid(t) ==> d >= 0.0
  {
    if t.totalOccurrences == 0 then 0.0
    else t.totalDuration as real / t.totalOccurrences as real
  }

  // ---------------------------------------------------------------------------
  // Statistics over the value buffer

  lemma SumPrefixStep(s: seq<real>, i: nat)
    requires i < |s|
    ensures Sum(s[..i + 1]) == Sum(s[..i]) + s[i]
  {
    assert s[..i + 1] == s[..i] + [s[i]];
    SumAppend(s[..i], s[i]);
  }

  lemma SquaredDeviationPrefixStep(s: seq<real>, i: nat, c: real)
    requires i < |s|
    ensures SquaredDeviation(s[..i + 1], c) == SquaredDeviation(s[..i], c) + Sq(s[i] - c)
  {
    assert (s[..i + 1])[..i] == s[..i];
  }

  /** calculateStatistics, with the square root left out: one pass for the mean and
      one for the squared deviations, divided by n - 1 (0 with fewer than two values). */
  method CalculateStatistics(t: IssueTracker) returns (mean: real, variance: real)
    ensures mean == Mean(t.data)
    ensures variance == SampleVariance(t.data)
  {
    var data := t.data;
    if |data| == 0 {
      return 0.0, 0.0;
    }
    var sum := 0.0;
    var i := 0;
    while i < |data|
      invariant 0 <= i <= |data|
      invariant sum == Sum(data[..i])
    {
      SumPrefixStep(data, i);
      sum := sum + data[i];
      i := i + 1;
    }
    assert data[..i] == data;
    var count := |data|;
    mean := sum / count as real;
    if count > 1 {
      var squares := 0.0;
      i := 0;
      while i < |data|
        invariant 0 <= i <= |data|
        invariant squares == SquaredDeviation(data[..i], mean)
      {
        SquaredDeviationPrefixStep(data, i, mean);
        var difference := data[i] - mean;
        squares := squares + difference * difference;
        i := i + 1;
      }
      assert data[..i] == data;
      variance := squares / (count - 1) as real;
    } else {
      variance := 0.0;
    }
  }

  /** getRecentAverage: the mean of the newest `count` values (all of them when the
      buffer holds fewer); 0 on an empty buffer. A negative count sums nothing and
      divides 0 by a negative number (0); a zero count on a non-empty buffer divides 0
      by 0, which gives NaN, modelled as None. */
  method RecentAverage(t: IssueTracker, count: int) returns (r: Option<real>)
    ensures r == None <==> (count == 0 && |t.data| > 0)
    ensures |t.data| == 0 ==> r == Some(0.0)
    ensures count >= 1 && |t.data| > 0 ==> r == Some(Mean(RB.Newest(t.data, count)))
    ensures count < 0 ==> r == Some(0.0)
  {
    var data := t.data;
    if |data| == 0 {
      return Some(0.0);
    }
    var n := Min(count, |data|);
    var sum := 0.0;
    var i := 0;
    while i < n
      invariant 0 <= i <= Max(n, 0)
      invariant sum == Sum(data[|data| - i..])
    {
      var suffix := data[|data| - (i + 1)..];
      SumFirst(suffix);
      assert suffix[0] == data[|data| - 1 - i];
      assert suffix[1..] == data[|data| - i..];
      sum := sum + data[|data| - 1 - i];
      i := i + 1;
    }
    if n == 0 {
      return None;
    }
    if n > 0 {
      assert i == n;
      assert RB.Newest(data, count) == data[|data| - n..];
    }
    r := Some(sum / n as real);
  }

  // ---------------------------------------------------------------------------
  // Least-squares trend

  /** The running sums of the regression of a window against x = 0 .. n - 1: the
      number of points, Sx, Sy, Sxy and Sxx, as the source accumulates them in doubles. */
  datatype RegressionSums = RegressionSums(n: real, sumX: real, sumY: real, sumXY: real, sumX2: real)

  /** The sums after adding the points of `w` one by one, oldest first. */
  function SumsOf(w: seq<real>): RegressionSums
    decreases |w|
  {
    if |w| == 0 then RegressionSums(0.0, 0.0, 0.0, 0.0, 0.0)
    else
      AddPoint(SumsOf(w[..|w| - 1]), (|w| - 1) as real, w[|w| - 1])
  }

  /** One more point (x, y) in the sums. */
  function AddPoint(p: RegressionSums, x: real, y: real): RegressionSums
  {
    RegressionSums(p.n + 1.0, p.sumX + x, p.sumY + y, p.sumXY + x * y, p.sumX2 + x * x)
  }

  function SlopeDenominator(s: RegressionSums): real
  {
    s.n * s.sumX2 - s.sumX * s.sumX
  }

  /** The least-squares slope (n Sxy - Sx Sy) / (n Sxx - Sx^2). */
  function SlopeOf(s: RegressionSums): real
    requires SlopeDenominator(s) != 0.0
  {
    (s.n * s.sumXY - s.sumX * s.sumY) / SlopeDenominator(s)
  }

  /** The x sums depend only on the window size: 2 Sx = n(n-1) and 6 Sxx = n(n-1)(2n-1). */
  predicate XSumsOfSize(s: RegressionSums, nr: real)
  {
    s.n == nr && 2.0 * s.sumX == TwiceSumBelow(nr) && 6.0 * s.sumX2 == SixSquaresBelow(nr)
  }

  /** n(n-1): twice 0 + 1 + ... + (n-1). */
  function TwiceSumBelow(nr: real): real
  {
    nr * (nr - 1.0)
  }

  /** n(n-1)(2n-1): six times 0^2 + 1^2 + ... + (n-1)^2. */
  function SixSquaresBelow(nr: real): real
  {
    nr * (nr - 1.0) * (2.0 * nr - 1.0)
  }

  lemma {:induction false} XSumsClosedForm(w: seq<real>)
    ensures XSumsOfSize(SumsOf(w), |w| as real)
    decreases |w|
  {
    if |w| > 0 {
      var w' := w[..|w| - 1];
      XSumsClosedForm(w');
      assert |w'| as real == (|w| - 1) as real;
      XSumsStep(SumsOf(w'), (|w| - 1) as real, w[|w| - 1], |w| as real);
    } else {
      assert |w| as real == 0.0;
    }
  }

  /** Adding the point at x = m to sums over m points gives the x sums of m + 1 points. */
  lemma XSumsStep(p: RegressionSums, m: real, y: real, n: real)
    requires XSumsOfSize(p, m) && n == m + 1.0
    ensures XSumsOfSize(AddPoint(p, m, y), n)
  {
    var q := AddPoint(p, m, y);
    assert q.sumX == p.sumX + m && q.sumX2 == p.sumX2 + m * m;
    SquareStep(m, n);
    CubeStep(m, n);
  }

  /** m(m-1) + 2m == (m+1)m. */
  lemma SquareStep(m: real, n: real)
    requires n == m + 1.0
    ensures TwiceSumBelow(m) + 2.0 * m == TwiceSumBelow(n)
  {
    var m2 := m * m;
    assert TwiceSumBelow(m) == m2 - m;
    assert n - 1.0 == m;
    assert TwiceSumBelow(n) == (m + 1.0) * m;
    assert (m + 1.0) * m == m2 + m;
  }

  /** m(m-1)(2m-1) + 6m^2 == (m+1)m(2m+1), spelled out as polynomials in m. */
  lemma CubeStep(m: real, n: real)
    requires n == m + 1.0
    ensures SixSquaresBelow(m) + 6.0 * (m * m) == SixSquaresBelow(n)
  {
    var m2 := m * m;
    var m3 := m2 * m;
    assert m * (m - 1.0) == m2 - m;
    assert SixSquaresBelow(m) == (m2 - m) * (2.0 * m - 1.0);
    assert (m2 - m) * (2.0 * m - 1.0) == 2.0 * m3 - 3.0 * m2 + m;
    assert n - 1.0 == m && 2.0 * n - 1.0 == 2.0 * m + 1.0;
    assert n * m == m2 + m;
    assert SixSquaresBelow(n) == (m2 + m) * (2.0 * m + 1.0);
    assert (m2 + m) * (2.0 * m + 1.0) == 2.0 * m3 + 3.0 * m2 + m;
  }

  /** For two or more points the regression denominator is positive: twelve times it
      is n(n-1) * n(n+1). */
  lemma WindowDenominatorPositive(w: seq<real>)
    requires |w| >= 2
    ensures SlopeDenominator(SumsOf(w)) > 0.0
  {
    XSumsClosedForm(w);
    DenominatorOfSize(SumsOf(w), |w| as real);
  }

  lemma DenominatorOfSize(s: RegressionSums, nr: real)
    requires nr >= 2.0 && XSumsOfSize(s, nr)
    ensures SlopeDenominator(s) > 0.0
  {
    var lower := nr * (nr - 1.0);
    var upper := nr * (nr + 1.0);
    var sx, sx2 := s.sumX, s.sumX2;
    calc {
      12.0 * SlopeDenominator(s);
      2.0 * nr * (6.0 * sx2) - 3.0 * ((2.0 * sx) * (2.0 * sx));
      2.0 * nr * (lower * (2.0 * nr - 1.0)) - 3.0 * (lower * lower);
      lower * (2.0 * nr * (2.0 * nr - 1.0) - 3.0 * lower);
      lower * upper;
    }
    ProductPositive(nr, nr - 1.0);
    ProductPositive(nr, nr + 1.0);
    ProductPositive(lower, upper);
  }

  /** The least-squares slope of `w` against x = 0 .. |w| - 1, or 0 below two points. */
  function LeastSquaresSlope(w: seq<real>): real
  {
    if |w| < 2 then 0.0
    else
      WindowDenominatorPositive(w);
      SlopeOf(SumsOf(w))
  }

  /** The trend window: the newest min(count, size) values, none for a count <= 0. */
  function TrendWindow(data: seq<real>, count: int): seq<real>
  {
    RB.Newest(data, Max(count, 0))
  }

  /** calculateTrend's value: 0 with fewer than two buffered values, otherwise the
      least-squares slope of the trend window. */
  function Trend(data: seq<real>, count: int): real
  {
    if |data| < 2 then 0.0 else LeastSquaresSlope(TrendWindow(data, count))
  }

  lemma SumsPrefixStep(s: seq<real>, i: nat)
    requires i < |s|
    ensures SumsOf(s[..i + 1]) == AddPoint(SumsOf(s[..i]), i as real, s[i])
  {
    assert (s[..i + 1])[..i] == s[..i];
  }

  /** The accumulation loop of calculateTrend: one pass over `w`, oldest value first,
      adding x, y, x * y and x * x for x the position of y. */
  method AccumulateSums(w: seq<real>) returns (sums: RegressionSums)
    ensures sums == SumsOf(w)
    ensures sums.n == |w| as real
  {
    var sumX, sumY, sumXY, sumX2 := 0.0, 0.0, 0.0, 0.0;
    var n := 0;
    while n < |w|
      invariant 0 <= n <= |w|
      invariant RegressionSums(n as real, sumX, sumY, sumXY, sumX2) == SumsOf(w[..n])
    {
      SumsPrefixStep(w, n);
      var x := n as real;
      sumX := sumX + x;
      sumY := sumY + w[n];
      sumXY := sumXY + x * w[n];
      sumX2 := sumX2 + x * x;
      n := n + 1;
    }
    assert w[..n] == w;
    sums := RegressionSums(n as real, sumX, sumY, sumXY, sumX2);
  }

  /** calculateTrend: the regression sums over the newest `count` values and the slope
      they give, 0 when fewer than two buffered values or summed points. */
  method CalculateTrend(t: IssueTracker, count: int) returns (r: real)
    ensures r == Trend(t.data, count)
    ensures |t.data| < 2 || count < 2 ==> r == 0.0
  {
    if |t.data| < 2 {
      return 0.0;
    }
    var w := TrendWindow(t.data, count);
    var s := AccumulateSums(w);
    if |w| < 2 {
      return 0.0;
    }
    TrendIsWindowSlope(t.data, count);
    r := SlopeOf(s);
  }

  lemma TrendIsWindowSlope(data: seq<real>, count: int)
    requires |data| >= 2 && |TrendWindow(data, count)| >= 2
    ensures SlopeDenominator(SumsOf(TrendWindow(data, count))) > 0.0
    ensures Trend(data, count) == SlopeOf(SumsOf(TrendWindow(data, count)))
  {
    WindowDenominatorPositive(TrendWindow(data, count));
  }

  /** Sums taken along the line y = a + d x: Sy = n a + d Sx and Sxy = a Sx + d Sxx. */
  predicate OnLine(s: RegressionSums, a: real, d: real)
  {
    s.sumY == s.n * a + d * s.sumX && s.sumXY == a * s.sumX + d * s.sumX2
  }

  lemma {:induction false} ArithmeticSums(w: seq<real>, a: real, d: real)
    requires forall i :: 0 <= i < |w| ==> w[i] == a + d * i as real
    ensures OnLine(SumsOf(w), a, d)
    decreases |w|
  {
    if |w| > 0 {
      var m := |w| - 1;
      var w' := w[..m];
      assert forall i :: 0 <= i < |w'| ==> w'[i] == a + d * i as real;
      ArithmeticSums(w', a, d);
      var p := SumsOf(w');
      var x, y := m as real, w[m];
      assert y == a + d * x;
      LineStep(p, a, d, x, y);
    }
  }

  /** Adding the point (x, a + d x) keeps sums on the line. */
  lemma LineStep(p: RegressionSums, a: real, d: real, x: real, y: real)
    requires OnLine(p, a, d) && y == a + d * x
    ensures OnLine(AddPoint(p, x, y), a, d)
  {
    assert p.sumXY + x * y == a * (p.sumX + x) + d * (p.sumX2 + x * x);
  }

  /** On exact line sums the slope formula returns the line's rise per sample. */
  lemma LineSlope(s: RegressionSums, a: real, d: real)
    requires OnLine(s, a, d) && SlopeDenominator(s) != 0.0
    ensures SlopeOf(s) == d
  {
    var den := SlopeDenominator(s);
    calc {
      s.n * s.sumXY - s.sumX * s.sumY;
      s.n * (a * s.sumX + d * s.sumX2) - s.sumX * (s.n * a + d * s.sumX);
      d * den;
    }
    assert (d * den) / den == d;
  }

  /** A window rising by exactly `d` per sample has trend `d`. */
  lemma ArithmeticWindowSlope(w: seq<real>, a: real, d: real)
    requires |w| >= 2
    requires forall i :: 0 <= i < |w| ==> w[i] == a + d * i as real
    ensures LeastSquaresSlope(w) == d
  {
    ArithmeticSums(w, a, d);
    WindowDenominatorPositive(w);
    LineSlope(SumsOf(w), a, d);
  }

  /** A constant window has trend 0. */
  lemma ConstantWindowSlope(w: seq<real>, c: real)
    requires |w| >= 2 && AllWithin(w, c, c)
    ensures LeastSquaresSlope(w) == 0.0
  {
    forall i | 0 <= i < |w| ensures w[i] == c + 0.0 * i as real {
    }
    ArithmeticWindowSlope(w, c, 0.0);
  }
}
