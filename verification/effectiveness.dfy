/** The per-suggestion-type log of user ratings, with its derived average,
    age-weighted score, confidence and trend. Time is passed in as epoch
    milliseconds; the age weight (an exponential decay over whole days in the
    program) is passed in as a positive function of the age in days. */
module Effectiveness {
  import opened Basics
  import opened SeqStats
  import ST = SuggestionTypes

  const MillisPerDay: int := 86_400_000

  datatype Rating = Rating(rating: int, feedback: string, timestamp: int)

  datatype EffectivenessTrend = Improving | Stable | Declining | UnknownTrend

  datatype SuggestionEffectiveness = SuggestionEffectiveness(
    suggestionType: ST.SuggestionType,
    ratings: seq<Rating>,
    totalApplications: int,
    totalPoints: int,
    currentScore: real,
    confidence: real,
    lastUpdated: int)

  /** An age weight the model accepts: strictly positive for every age. */
  ghost predicate PositiveWeight(weight: int -> real)
  {
    forall d: int :: weight(d) > 0.0
  }

  /** The star values of a rating log, oldest first. */
  function Values(rs: seq<Rating>): (v: seq<real>)
    ensures |v| == |rs|
    ensures forall i :: 0 <= i < |rs| ==> v[i] == rs[i].rating as real
  {
    seq(|rs|, i requires 0 <= i < |rs| => rs[i].rating as real)
  }

  predicate RatingsInRange(rs: seq<Rating>, lo: int, hi: int)
  {
    forall i :: 0 <= i < |rs| ==> lo <= rs[i].rating <= hi
  }

  /** The counters agree with the log, every logged rating is 1..5, and the
      stored confidence is the one the log determines. */
  predicate Valid(e: SuggestionEffectiveness)
  {
    && e.totalApplications == |e.ratings|
    && e.totalPoints as real == Sum(Values(e.ratings))
    && RatingsInRange(e.ratings, 1, 5)
    && e.confidence == ConfidenceFor(e)
  }

  /** A fresh log: neutral score 3.0 and no confidence. */
  function New(t: ST.SuggestionType, now: int): (e: SuggestionEffectiveness)
    ensures Valid(e)
    ensures e.currentScore == 3.0 && e.confidence == 0.0 && AverageEffectiveness(e) == 3.0
    ensures |e.ratings| == 0
  {
    SuggestionEffectiveness(t, [], 0, 0, 3.0, 0.0, now)
  }

  /** getAverageEffectiveness: total points over applications, or 3.0 before any rating. */
  function AverageEffectiveness(e: SuggestionEffectiveness): real
  {
    if e.totalApplications == 0 then 3.0 else e.totalPoints as real / e.totalApplications as real
  }

  /** In a valid log with ratings, the average is the mean rating, between 1 and 5. */
  lemma AverageIsMean(e: SuggestionEffectiveness)
    requires Valid(e) && |e.ratings| > 0
    ensures AverageEffectiveness(e) == Mean(Values(e.ratings))
    ensures 1.0 <= AverageEffectiveness(e) <= 5.0
  {
    assert AllWithin(Values(e.ratings), 1.0, 5.0);
    MeanBounds(Values(e.ratings), 1.0, 5.0);
  }

  /** `Duration.between(t, now).toDays()`: whole days, truncated toward zero. */
  function DaysOld(timestamp: int, now: int): int
  {
    JavaDiv(now - timestamp, MillisPerDay)
  }

  function WeightedSum(rs: seq<Rating>, now: int, weight: int -> real): real
    decreases |rs|
  {
    if |rs| == 0 then 0.0
    else
      var last := rs[|rs| - 1];
      WeightedSum(rs[..|rs| - 1], now, weight) + last.rating as real * weight(DaysOld(last.timestamp, now))
  }

  function TotalWeight(rs: seq<Rating>, now: int, weight: int -> real): (w: real)
    requires PositiveWeight(weight)
    ensures |rs| > 0 ==> w > 0.0
    decreases |rs|
  {
    if |rs| == 0 then 0.0
    else TotalWeight(rs[..|rs| - 1], now, weight) + weight(DaysOld(rs[|rs| - 1].timestamp, now))
  }

  lemma ScaledBetween(r: real, w: real, lo: real, hi: real)
    requires w > 0.0 && lo <= r <= hi
    ensures lo * w <= r * w <= hi * w
  {
    assert (r - lo) * w >= 0.0;
    assert (hi - r) * w >= 0.0;
  }

  lemma StepBetween(ws: real, tw: real, r: real, w: real, lo: real, hi: real, sum: real, total: real)
    requires lo * tw <= ws <= hi * tw && w > 0.0 && lo <= r <= hi
    requires sum == ws + r * w && total == tw + w
    ensures lo * total <= sum <= hi * total
  {
    ScaledBetween(r, w, lo, hi);
    assert lo * (tw + w) == lo * tw + lo * w;
    assert hi * (tw + w) == hi * tw + hi * w;
  }

  /** The weighted sum lies between lo and hi times the total weight. */
  lemma {:induction false} WeightedSumBounds(rs: seq<Rating>, now: int, weight: int -> real, lo: int, hi: int)
    requires PositiveWeight(weight) && RatingsInRange(rs, lo, hi)
    ensures lo as real * TotalWeight(rs, now, weight) <= WeightedSum(rs, now, weight)
              <= hi as real * TotalWeight(rs, now, weight)
    decreases |rs|
  {
    if |rs| > 0 {
      var init := rs[..|rs| - 1];
      assert RatingsInRange(init, lo, hi);
      WeightedSumBounds(init, now, weight, lo, hi);
      assert lo <= rs[|rs| - 1].rating <= hi;
      WeightedSumBoundsStep(rs, now, weight, lo, hi);
    }
  }

  /** The bounds carry over from all but the newest rating to the whole log. */
  lemma WeightedSumBoundsStep(rs: seq<Rating>, now: int, weight: int -> real, lo: int, hi: int)
    requires PositiveWeight(weight) && |rs| > 0 && lo <= rs[|rs| - 1].rating <= hi
    requires var init := rs[..|rs| - 1];
             lo as real * TotalWeight(init, now, weight) <= WeightedSum(init, now, weight)
               <= hi as real * TotalWeight(init, now, weight)
    ensures lo as real * TotalWeight(rs, now, weight) <= WeightedSum(rs, now, weight)
              <= hi as real * TotalWeight(rs, now, weight)
  {
    var init := rs[..|rs| - 1];
    var last := rs[|rs| - 1];
    WeightedSumSnoc(rs, now, weight, DaysOld(last.timestamp, now));
    StepBetween(WeightedSum(init, now, weight), TotalWeight(init, now, weight), last.rating as real,
                weight(DaysOld(last.timestamp, now)), lo as real, hi as real,
                WeightedSum(rs, now, weight), TotalWeight(rs, now, weight));
  }

  lemma QuotientBetween(a: real, b: real, lo: real, hi: real)
    requires b > 0.0 && lo * b <= a <= hi * b
    ensures lo <= a / b <= hi
  {
    var q := a / b;
    assert q * b == a;
    if q < lo {
      ScaledStrict(q, lo, b);
    }
    if q > hi {
      ScaledStrict(hi, q, b);
    }
  }

  lemma ScaledStrict(x: real, y: real, b: real)
    requires x < y && b > 0.0
    ensures x * b < y * b
  {
    ProductPositive(y - x, b);
  }

  /** updateCurrentScore: the age-weighted mean of every rating, or 3.0 for an
      empty log (the previous score is kept if the weights sum to zero). */
  function WeightedScore(rs: seq<Rating>, previous: real, now: int, weight: int -> real): real
    requires PositiveWeight(weight)
  {
    if |rs| == 0 then 3.0
    else
      var total := TotalWeight(rs, now, weight);
      if total > 0.0 then WeightedSum(rs, now, weight) / total else previous
  }

  /** The score never leaves the range the ratings span. */
  lemma ScoreBetweenRatings(rs: seq<Rating>, previous: real, now: int, weight: int -> real, lo: int, hi: int)
    requires PositiveWeight(weight) && |rs| > 0 && RatingsInRange(rs, lo, hi)
    ensures lo as real <= WeightedScore(rs, previous, now, weight) <= hi as real
  {
    WeightedSumBounds(rs, now, weight, lo, hi);
    QuotientBetween(WeightedSum(rs, now, weight), TotalWeight(rs, now, weight), lo as real, hi as real);
  }

  /** Ratings all of the same age in whole days share one weight `w`. */
  predicate SameAge(rs: seq<Rating>, now: int, d: int)
  {
    forall i :: 0 <= i < |rs| ==> DaysOld(rs[i].timestamp, now) == d
  }

  lemma SameAgeSums(rs: seq<Rating>, now: int, weight: int -> real, d: int)
    requires PositiveWeight(weight) && SameAge(rs, now, d)
    ensures WeightedSum(rs, now, weight) == weight(d) * Sum(Values(rs))
    ensures TotalWeight(rs, now, weight) == weight(d) * |rs| as real
  {
    SameAgeWeightedSum(rs, now, weight, d);
    SameAgeTotalWeight(rs, now, weight, d);
  }

  lemma {:induction false} SameAgeWeightedSum(rs: seq<Rating>, now: int, weight: int -> real, d: int)
    requires SameAge(rs, now, d)
    ensures WeightedSum(rs, now, weight) == weight(d) * Sum(Values(rs))
    decreases |rs|
  {
    if |rs| > 0 {
      var init := rs[..|rs| - 1];
      assert SameAge(init, now, d);
      SameAgeWeightedSum(init, now, weight, d);
      WeightedSumSnoc(rs, now, weight, d);
      ValuesSumSnoc(rs);
      Distribute(weight(d), Sum(Values(init)), rs[|rs| - 1].rating as real);
    }
  }

  /** The weighted sum grows by the newest rating times its weight. */
  lemma WeightedSumSnoc(rs: seq<Rating>, now: int, weight: int -> real, d: int)
    requires |rs| > 0 && DaysOld(rs[|rs| - 1].timestamp, now) == d
    ensures WeightedSum(rs, now, weight)
            == WeightedSum(rs[..|rs| - 1], now, weight) + rs[|rs| - 1].rating as real * weight(d)
  {
  }

  /** The plain sum grows by the newest rating. */
  lemma ValuesSumSnoc(rs: seq<Rating>)
    requires |rs| > 0
    ensures Sum(Values(rs)) == Sum(Values(rs[..|rs| - 1])) + rs[|rs| - 1].rating as real
  {
    assert Values(rs) == Values(rs[..|rs| - 1]) + [rs[|rs| - 1].rating as real];
    SumAppend(Values(rs[..|rs| - 1]), rs[|rs| - 1].rating as real);
  }

  lemma Distribute(w: real, s: real, v: real)
    ensures w * (s + v) == w * s + v * w
  {
  }

  lemma {:induction false} SameAgeTotalWeight(rs: seq<Rating>, now: int, weight: int -> real, d: int)
    requires PositiveWeight(weight) && SameAge(rs, now, d)
    ensures TotalWeight(rs, now, weight) == weight(d) * |rs| as real
    decreases |rs|
  {
    if |rs| > 0 {
      var init := rs[..|rs| - 1];
      var w, n := weight(d), |init| as real;
      assert SameAge(init, now, d);
      SameAgeTotalWeight(init, now, weight, d);
      assert TotalWeight(rs, now, weight) == TotalWeight(init, now, weight) + w;
      assert w * (n + 1.0) == w * n + w;
    }
  }

  /** When every rating has the same age, the weighted score is the plain mean. */
  lemma SameAgeScoreIsMean(rs: seq<Rating>, previous: real, now: int, weight: int -> real, d: int)
    requires PositiveWeight(weight) && |rs| > 0 && SameAge(rs, now, d)
    ensures WeightedScore(rs, previous, now, weight) == Mean(Values(rs))
  {
    SameAgeSums(rs, now, weight, d);
    var w := weight(d);
    var s := Sum(Values(rs));
    var n := |rs| as real;
    var q := s / n;
    assert q * n == s;
    assert q * (w * n) == w * s;
    ProductPositive(w, n);
    assert (w * s) / (w * n) == q;
  }

  /** calculateRatingVariance: the population variance (divisor n) about the
      average, or 0 with fewer than two ratings. */
  function RatingVariance(e: SuggestionEffectiveness): (v: real)
    ensures v >= 0.0
    ensures |e.ratings| < 2 ==> v == 0.0
    ensures |e.ratings| >= 2 ==>
              v * |e.ratings| as real == SquaredDeviation(Values(e.ratings), AverageEffectiveness(e))
  {
    if |e.ratings| < 2 then 0.0 else PopulationVariance(Values(e.ratings), AverageEffectiveness(e))
  }

  /** Ratings 1 and 5 have variance 4 about their average 3: the divisor is the
      count n, not n - 1 (which would give 8). */
  lemma OneAndFiveVariance(e: SuggestionEffectiveness)
    requires |e.ratings| == 2 && e.ratings[0].rating == 1 && e.ratings[1].rating == 5
    requires e.totalApplications == 2 && e.totalPoints == 6
    ensures RatingVariance(e) == 4.0
  {
    var vs := Values(e.ratings);
    assert AverageEffectiveness(e) == 3.0;
    assert vs[..1][..0] == [];
    assert SquaredDeviation(vs[..1], 3.0) == 4.0;
    assert vs[..|vs| - 1] == vs[..1];
    assert SquaredDeviation(vs, 3.0) == 8.0;
  }

  /** updateConfidence: min(1, n/10) for the sample size times a consistency
      factor max(0.1, 1 - variance/4), or 0 with no ratings. */
  function ConfidenceFor(e: SuggestionEffectiveness): real
  {
    if |e.ratings| == 0 then 0.0
    else MinR(1.0, |e.ratings| as real / 10.0) * MaxR(0.1, 1.0 - RatingVariance(e) / 4.0)
  }

  lemma ProductInUnit(a: real, b: real)
    requires 0.0 < a <= 1.0 && 0.0 < b <= 1.0
    ensures 0.0 < a * b <= 1.0
  {
    ProductPositive(a, b);
    ProductNonNegative(1.0 - a, b);
    assert (1.0 - a) * b == b - a * b;
  }

  /** Confidence lies in (0, 1] once a rating exists, and is exactly 0.1 after one. */
  lemma ConfidenceBounds(e: SuggestionEffectiveness)
    requires |e.ratings| > 0
    ensures 0.0 < ConfidenceFor(e) <= 1.0
    ensures |e.ratings| == 1 ==> ConfidenceFor(e) == 0.1
  {
    var size := MinR(1.0, |e.ratings| as real / 10.0);
    var consistency := MaxR(0.1, 1.0 - RatingVariance(e) / 4.0);
    assert ConfidenceFor(e) == size * consistency;
    assert 0.0 < size <= 1.0 && 0.0 < consistency <= 1.0;
    ProductInUnit(size, consistency);
    if |e.ratings| == 1 {
      assert size == 0.1 && consistency == 1.0;
    }
  }

  /** addRating: a rating outside 1..5 is rejected and nothing changes; otherwise
      it is appended with timestamp `now`, the counters grow by one application
      and by the rating, and score and confidence are recomputed. */
  function AddRating(e: SuggestionEffectiveness, rating: int, feedback: string, now: int,
                     weight: int -> real): (r: Result<SuggestionEffectiveness, string>)
    requires PositiveWeight(weight)
    ensures r.Err? <==> (rating < 1 || rating > 5)
    ensures r.Ok? ==> r.value.suggestionType == e.suggestionType
                      && r.value.ratings == e.ratings + [Rating(rating, feedback, now)]
                      && r.value.totalApplications == e.totalApplications + 1
                      && r.value.totalPoints == e.totalPoints + rating
                      && r.value.lastUpdated == now
                      && r.value.currentScore == WeightedScore(r.value.ratings, e.currentScore, now, weight)
    ensures r.Ok? && Valid(e) ==> Valid(r.value)
                                  && 1.0 <= r.value.currentScore <= 5.0
                                  && 0.0 < r.value.confidence <= 1.0
  {
    if rating < 1 || rating > 5 then Err("Rating must be between 1 and 5")
    else
      var rs := e.ratings + [Rating(rating, feedback, now)];
      var counted := e.(ratings := rs, totalApplications := e.totalApplications + 1,
                        totalPoints := e.totalPoints + rating);
      var scored := counted.(currentScore := WeightedScore(rs, e.currentScore, now, weight));
      var r := scored.(confidence := ConfidenceFor(scored), lastUpdated := now);
      AddRatingKeepsValid(e, r, rating, feedback, now, weight);
      Ok(r)
  }

  lemma AddRatingKeepsValid(e: SuggestionEffectiveness, r: SuggestionEffectiveness, rating: int,
                            feedback: string, now: int, weight: int -> real)
    requires PositiveWeight(weight) && 1 <= rating <= 5
    requires r.ratings == e.ratings + [Rating(rating, feedback, now)]
    requires r.totalApplications == e.totalApplications + 1 && r.totalPoints == e.totalPoints + rating
    requires r.currentScore == WeightedScore(r.ratings, e.currentScore, now, weight)
    requires r.confidence == ConfidenceFor(r)
    ensures Valid(e) ==> Valid(r) && 1.0 <= r.currentScore <= 5.0 && 0.0 < r.confidence <= 1.0
  {
    if Valid(e) {
      assert Values(r.ratings) == Values(e.ratings) + [rating as real];
      SumAppend(Values(e.ratings), rating as real);
      assert RatingsInRange(r.ratings, 1, 5);
      ScoreBetweenRatings(r.ratings, e.currentScore, now, weight, 1, 5);
      ConfidenceBounds(r);
    }
  }

  /** isEffective. */
  predicate IsEffective(e: SuggestionEffectiveness)
  {
    e.currentScore >= 3.5 && e.confidence >= 0.3
  }

  /** shouldRecommend: always while confidence is below 0.2, else on a score of 3.0 or more. */
  predicate ShouldRecommend(e: SuggestionEffectiveness)
  {
    e.confidence < 0.2 || e.currentScore >= 3.0
  }

  /** With fewer than two ratings the confidence is at most 0.1, so the type is
      always recommended. */
  lemma FewRatingsAlwaysRecommended(e: SuggestionEffectiveness)
    requires Valid(e) && |e.ratings| < 2
    ensures ShouldRecommend(e)
  {
    if |e.ratings| == 1 {
      ConfidenceBounds(e);
    }
  }

  /** getRecentRatings: the newest `count` ratings, or all of them when there are
      fewer; a negative count makes the sub-list bounds invalid and throws. */
  function RecentRatings(e: SuggestionEffectiveness, count: int): (r: Option<seq<Rating>>)
    ensures r.None? <==> count < 0
    ensures r.Some? ==> |r.value| == Min(count, |e.ratings|)
                        && e.ratings == e.ratings[..|e.ratings| - |r.value|] + r.value
  {
    if |e.ratings| <= count then Some(e.ratings)
    else if count < 0 then None
    else Some(e.ratings[|e.ratings| - count..])
  }

  /** How many of the newest ratings getTrend treats as recent: min(5, n/2). */
  function RecentCount(n: nat): nat
  {
    Min(5, n / 2)
  }

  /** The ratings getTrend calls recent: the newest RecentCount(n) of them. */
  function RecentHalf(rs: seq<Rating>): seq<Rating>
  {
    rs[|rs| - RecentCount(|rs|)..]
  }

  /** The ratings getTrend calls older: every rating before the recent ones. */
  function OlderHalf(rs: seq<Rating>): seq<Rating>
  {
    rs[..|rs| - RecentCount(|rs|)]
  }

  /** How far the mean of the recent ratings lies above the mean of the older ones. */
  function TrendDifference(rs: seq<Rating>): real
  {
    Mean(Values(RecentHalf(rs))) - Mean(Values(OlderHalf(rs)))
  }

  /** getTrend: UNKNOWN below three ratings; otherwise the mean of the recent
      ratings minus the mean of all earlier ones, above 0.5 IMPROVING, below -0.5
      DECLINING, else STABLE. Both halves are non-empty, so the fallback average
      of 3.0 in the program is never used. */
  function Trend(e: SuggestionEffectiveness): (t: EffectivenessTrend)
    ensures t == UnknownTrend <==> |e.ratings| < 3
    ensures |e.ratings| >= 3 ==>
              && 1 <= |RecentHalf(e.ratings)| && 1 <= |OlderHalf(e.ratings)|
              && OlderHalf(e.ratings) + RecentHalf(e.ratings) == e.ratings
              && RecentRatings(e, RecentCount(|e.ratings|)) == Some(RecentHalf(e.ratings))
    ensures |e.ratings| >= 3 ==>
              && (t == Improving <==> TrendDifference(e.ratings) > 0.5)
              && (t == Declining <==> TrendDifference(e.ratings) < -0.5)
              && (t == Stable <==> -0.5 <= TrendDifference(e.ratings) <= 0.5)
  {
    var n := |e.ratings|;
    if n < 3 then UnknownTrend
    else
      assert OlderHalf(e.ratings) + RecentHalf(e.ratings) == e.ratings;
      var difference := TrendDifference(e.ratings);
      if difference > 0.5 then Improving
      else if difference < -0.5 then Declining
      else Stable
  }

  /** Every rating of `rs` is at least `lo`. */
  predicate AllRatedAtLeast(rs: seq<Rating>, lo: real)
  {
    forall i :: 0 <= i < |rs| ==> rs[i].rating as real >= lo
  }

  /** Every rating of `rs` is at most `hi`. */
  predicate AllRatedAtMost(rs: seq<Rating>, hi: real)
  {
    forall i :: 0 <= i < |rs| ==> rs[i].rating as real <= hi
  }

  /** The mean of ratings in 1..5 that are all at least `lo` is at least `lo`. */
  lemma MeanAtLeast(rs: seq<Rating>, lo: real)
    requires |rs| > 0 && RatingsInRange(rs, 1, 5) && AllRatedAtLeast(rs, lo)
    ensures Mean(Values(rs)) >= lo
  {
    assert AllWithin(Values(rs), lo, 5.0);
    MeanBounds(Values(rs), lo, 5.0);
  }

  /** The mean of ratings in 1..5 that are all at most `hi` is at most `hi`. */
  lemma MeanAtMost(rs: seq<Rating>, hi: real)
    requires |rs| > 0 && RatingsInRange(rs, 1, 5) && AllRatedAtMost(rs, hi)
    ensures Mean(Values(rs)) <= hi
  {
    assert AllWithin(Values(rs), 1.0, hi);
    MeanBounds(Values(rs), 1.0, hi);
  }

  lemma HalvesInRange(rs: seq<Rating>)
    requires RatingsInRange(rs, 1, 5)
    ensures RatingsInRange(RecentHalf(rs), 1, 5) && RatingsInRange(OlderHalf(rs), 1, 5)
  {
    var k := |rs| - RecentCount(|rs|);
    forall i | 0 <= i < |RecentHalf(rs)| ensures 1 <= RecentHalf(rs)[i].rating <= 5 {
      assert RecentHalf(rs)[i] == rs[k + i];
    }
  }

  /** A log of three or more equal ratings is STABLE: both halves have the same mean. */
  lemma ConstantLogIsStable(e: SuggestionEffectiveness, c: int)
    requires |e.ratings| >= 3 && RatingsInRange(e.ratings, c, c)
    ensures Trend(e) == Stable
  {
    var rs := e.ratings;
    var k := |rs| - RecentCount(|rs|);
    assert |OlderHalf(rs)| >= 1 && |RecentHalf(rs)| >= 1;
    assert AllWithin(Values(RecentHalf(rs)), c as real, c as real) by {
      forall i | 0 <= i < |RecentHalf(rs)| ensures RecentHalf(rs)[i].rating == c {
        assert RecentHalf(rs)[i] == rs[k + i];
      }
    }
    assert AllWithin(Values(OlderHalf(rs)), c as real, c as real);
    MeanOfConstant(Values(RecentHalf(rs)), c as real);
    MeanOfConstant(Values(OlderHalf(rs)), c as real);
    assert TrendDifference(rs) == 0.0;
  }

  /** When every recent rating is at least `lo`, every older one at most `hi`,
      and lo - hi > 0.5, the trend is IMPROVING. */
  lemma SeparatedHalvesImprove(e: SuggestionEffectiveness, lo: real, hi: real)
    requires |e.ratings| >= 3 && RatingsInRange(e.ratings, 1, 5)
    requires AllRatedAtLeast(RecentHalf(e.ratings), lo) && AllRatedAtMost(OlderHalf(e.ratings), hi)
    requires lo - hi > 0.5
    ensures Trend(e) == Improving
  {
    var rs := e.ratings;
    assert |OlderHalf(rs)| >= 1 && |RecentHalf(rs)| >= 1;
    HalvesInRange(rs);
    MeanAtLeast(RecentHalf(rs), lo);
    MeanAtMost(OlderHalf(rs), hi);
  }

  /** When every recent rating is at most `hi`, every older one at least `lo`,
      and lo - hi > 0.5, the trend is DECLINING. */
  lemma SeparatedHalvesDecline(e: SuggestionEffectiveness, lo: real, hi: real)
    requires |e.ratings| >= 3 && RatingsInRange(e.ratings, 1, 5)
    requires AllRatedAtMost(RecentHalf(e.ratings), hi) && AllRatedAtLeast(OlderHalf(e.ratings), lo)
    requires lo - hi > 0.5
    ensures Trend(e) == Declining
  {
    var rs := e.ratings;
    assert |OlderHalf(rs)| >= 1 && |RecentHalf(rs)| >= 1;
    HalvesInRange(rs);
    MeanAtMost(RecentHalf(rs), hi);
    MeanAtLeast(OlderHalf(rs), lo);
  }

  /** AddThen with an accepted rating appends it and keeps the log valid. */
  function AddThen(e: SuggestionEffectiveness, rating: int, now: int, weight: int -> real): (r: SuggestionEffectiveness)
    requires PositiveWeight(weight)
    ensures 1 <= rating <= 5 ==> r.ratings == e.ratings + [Rating(rating, "", now)]
    ensures 1 <= rating <= 5 && Valid(e) ==> Valid(r)
    ensures !(1 <= rating <= 5) ==> r == e
  {
    match AddRating(e, rating, "", now, weight)
    case Ok(e') => e'
    case Err(_) => e
  }

  /** An accepted rating rescores the extended log, seeded with the previous score. */
  lemma AddThenScore(e: SuggestionEffectiveness, rating: int, now: int, weight: int -> real)
    requires PositiveWeight(weight) && 1 <= rating <= 5
    ensures AddThen(e, rating, now, weight).currentScore
         == WeightedScore(AddThen(e, rating, now, weight).ratings, e.currentScore, now, weight)
  {
  }

  /** Three ratings of 5 at `now`. */
  function AddFives(e: SuggestionEffectiveness, now: int, weight: int -> real): SuggestionEffectiveness
    requires PositiveWeight(weight)
  {
    AddThen(AddThen(AddThen(e, 5, now, weight), 5, now, weight), 5, now, weight)
  }

  /** Seven ratings of 1 at `now`. */
  function AddOnes(e: SuggestionEffectiveness, now: int, weight: int -> real): SuggestionEffectiveness
    requires PositiveWeight(weight)
  {
    var e2 := AddThen(AddThen(e, 1, now, weight), 1, now, weight);
    var e4 := AddThen(AddThen(e2, 1, now, weight), 1, now, weight);
    AddThen(AddThen(AddThen(e4, 1, now, weight), 1, now, weight), 1, now, weight)
  }

  /** Three same-moment ratings of 5 on a fresh log make the type effective:
      score 5 and confidence exactly 0.3. */
  lemma ThreeFivesAreEffective(t: ST.SuggestionType, now: int, weight: int -> real)
    requires PositiveWeight(weight)
    ensures Valid(AddFives(New(t, now), now, weight)) && IsEffective(AddFives(New(t, now), now, weight))
  {
    var e0 := New(t, now);
    var e2 := AddThen(AddThen(e0, 5, now, weight), 5, now, weight);
    var e3 := AddThen(e2, 5, now, weight);
    FivesLog(e0, now, weight);
    AddThenScore(e2, 5, now, weight);
    UniformLogEffective(e3, e2.currentScore, now, weight);
  }

  /** Three ratings of 5 on an empty log leave exactly those three ratings. */
  lemma FivesLog(e: SuggestionEffectiveness, now: int, weight: int -> real)
    requires PositiveWeight(weight) && e.ratings == []
    ensures var five := Rating(5, "", now);
            AddFives(e, now, weight).ratings == [five, five, five]
  {
    var five := Rating(5, "", now);
    var e1 := AddThen(e, 5, now, weight);
    var e2 := AddThen(e1, 5, now, weight);
    assert e1.ratings == [five];
    assert e2.ratings == [five, five];
  }

  lemma UniformLogEffective(e: SuggestionEffectiveness, previous: real, now: int, weight: int -> real)
    requires PositiveWeight(weight) && Valid(e)
    requires e.ratings == [Rating(5, "", now), Rating(5, "", now), Rating(5, "", now)]
    requires e.currentScore == WeightedScore(e.ratings, previous, now, weight)
    ensures IsEffective(e)
  {
    var rs := e.ratings;
    assert RatingsInRange(rs, 5, 5);
    ScoreBetweenRatings(rs, previous, now, weight, 5, 5);
    assert Values(rs) == [5.0, 5.0, 5.0];
    assert AllWithin(Values(rs), 5.0, 5.0);
    AverageIsMean(e);
    MeanOfConstant(Values(rs), 5.0);
    SquaredDeviationZero(Values(rs), 5.0);
    assert RatingVariance(e) == 0.0;
  }

  /** A log of three 5s followed by seven 1s reads as DECLINING: the five newest
      average 1, the five before them 3.4. */
  lemma FivesThenOnesDecline(e: SuggestionEffectiveness, now: int)
    requires var five := Rating(5, "", now); var one := Rating(1, "", now);
             e.ratings == [five, five, five, one, one, one, one, one, one, one]
    ensures Trend(e) == Declining
  {
    var recent := Values(e.ratings[5..]);
    var older := Values(e.ratings[..5]);
    assert recent == [1.0, 1.0, 1.0, 1.0, 1.0];
    assert AllWithin(recent, 1.0, 1.0);
    MeanOfConstant(recent, 1.0);
    assert older == [5.0, 5.0, 5.0, 1.0, 1.0];
    SumFirst(older);
    SumFirst(older[1..]);
    SumFirst(older[2..]);
    SumFirst(older[3..]);
    SumFirst(older[4..]);
    assert Sum(older) == 17.0;
  }

  /** Seven ratings of 1 after three 5s turn an effective type into a declining one. */
  lemma WorkedScenario(t: ST.SuggestionType, now: int, weight: int -> real)
    requires PositiveWeight(weight)
    ensures IsEffective(AddFives(New(t, now), now, weight))
    ensures Trend(AddOnes(AddFives(New(t, now), now, weight), now, weight)) == Declining
  {
    ThreeFivesAreEffective(t, now, weight);
    var e3 := AddFives(New(t, now), now, weight);
    var five := Rating(5, "", now);
    var one := Rating(1, "", now);
    assert e3.ratings == [five, five, five];
    var e10 := AddOnes(e3, now, weight);
    assert e10.ratings == [five, five, five, one, one, one, one, one, one, one];
    FivesThenOnesDecline(e10, now);
  }
}
