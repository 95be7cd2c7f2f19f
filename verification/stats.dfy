/** The engine's summary record: how many suggestions were generated, applied
    and are pending, and the derived application rate. */
module OptimizationStats {
  import Hardware
  import Playstyle
  import SeqStats

  datatype OptimizationStatistics = OptimizationStatistics(
    totalSuggestionsGenerated: int,
    totalSuggestionsApplied: int,
    pendingSuggestions: int,
    trackedSuggestionTypes: int,
    hardwareProfile: Hardware.HardwareProfile,
    playstyleProfile: Playstyle.PlaystyleProfile)

  /** getApplicationRate: applied over generated, and 0 before anything was
      generated. */
  function ApplicationRate(s: OptimizationStatistics): (r: real)
    ensures s.totalSuggestionsGenerated == 0 ==> r == 0.0
    ensures s.totalSuggestionsGenerated != 0 ==>
              r * s.totalSuggestionsGenerated as real == s.totalSuggestionsApplied as real
  {
    if s.totalSuggestionsGenerated == 0 then 0.0
    else s.totalSuggestionsApplied as real / s.totalSuggestionsGenerated as real
  }

  /** isPerformingWell: more than 30% applied and fewer than ten pending. */
  predicate IsPerformingWell(s: OptimizationStatistics)
  {
    ApplicationRate(s) > 0.3 && s.pendingSuggestions < 10
  }

  /** With counts that make sense the rate is a fraction; and an engine that has
      generated nothing, or applied nothing, is never performing well. */
  lemma RateIsAFraction(s: OptimizationStatistics)
    requires 0 <= s.totalSuggestionsApplied <= s.totalSuggestionsGenerated
    ensures 0.0 <= ApplicationRate(s) <= 1.0
    ensures s.totalSuggestionsApplied == 0 ==> !IsPerformingWell(s)
    ensures IsPerformingWell(s) <==>
              10 * s.totalSuggestionsApplied > 3 * s.totalSuggestionsGenerated && s.pendingSuggestions < 10
  {
    if s.totalSuggestionsGenerated != 0 {
      var g := s.totalSuggestionsGenerated as real;
      var a := s.totalSuggestionsApplied as real;
      assert ApplicationRate(s) == a / g;
      SeqStats.QuotientAbove(a, g, 0.3);
      SeqStats.QuotientAbove(a, g, 1.0);
      SeqStats.QuotientAbove(a, g, 0.0);
      assert a > 0.3 * g <==> 10 * s.totalSuggestionsApplied > 3 * s.totalSuggestionsGenerated;
      assert a == 0.0 ==> a / g == 0.0;
    }
  }
}

/** The analyser's summary record: analysis count, the time of the last analysis,
    and how often each issue was detected. */
module AnalysisStats {
  import opened Basics
  import opened Issues
  import SeqStats
  import Seqs = Sequences

  datatype AnalysisStatistics = AnalysisStatistics(
    totalAnalysisCount: Int32,
    lastAnalysisTime: int,
    averageAnalysisTime: real,
    issueOccurrenceCounts: map<PerformanceIssue, int>)

  /** The milliseconds the analyser is taken to have been running: from an
      assumed start 50 ms per analysis before the last one (the product is
      computed in 32 bits). */
  function UptimeMs(s: AnalysisStatistics, now: int): int
  {
    now - (s.lastAnalysisTime - Wrap32(s.totalAnalysisCount * 50))
  }

  /** getAnalysisRate: analyses per second of uptime, 0 when nothing was
      analysed. The clock is the parameter `now`; a zero uptime divides by zero
      in floating point and has no real value (None). */
  function AnalysisRate(s: AnalysisStatistics, now: int): (r: Option<real>)
    ensures s.lastAnalysisTime == 0 || s.totalAnalysisCount == 0 ==> r == Some(0.0)
    ensures s.lastAnalysisTime != 0 && s.totalAnalysisCount != 0 ==>
              (r.None? <==> UptimeMs(s, now) == 0)
    ensures r.Some? && s.lastAnalysisTime != 0 && s.totalAnalysisCount != 0 ==>
              r.value * UptimeMs(s, now) as real == s.totalAnalysisCount as real * 1000.0
  {
    if s.lastAnalysisTime == 0 || s.totalAnalysisCount == 0 then Some(0.0)
    else
      var uptime := UptimeMs(s, now);
      if uptime == 0 then None
      else Some(s.totalAnalysisCount as real * 1000.0 / uptime as real)
  }

  /** With a modest count and a clock not behind the last analysis, the uptime
      covers at least 50 ms per analysis, so the rate is at most 20 per second. */
  lemma RateAtMostTwentyPerSecond(s: AnalysisStatistics, now: int)
    requires 0 < s.totalAnalysisCount <= 42_000_000 && s.lastAnalysisTime != 0
    requires now >= s.lastAnalysisTime
    ensures AnalysisRate(s, now).Some?
    ensures 0.0 < AnalysisRate(s, now).value <= 20.0
  {
    var n := s.totalAnalysisCount as real;
    assert Wrap32(s.totalAnalysisCount * 50) == s.totalAnalysisCount * 50;
    var u := UptimeMs(s, now) as real;
    assert u >= 50.0 * n;
    var x := n * 1000.0;
    assert AnalysisRate(s, now).value == x / u;
    SeqStats.QuotientAbove(x, u, 20.0);
    SeqStats.QuotientAbove(x, u, 0.0);
  }

  /** Sum of the counts of the listed issues that are in the map. */
  function SumCounts(m: map<PerformanceIssue, int>, order: seq<PerformanceIssue>): int
  {
    if |order| == 0 then 0
    else (if order[0] in m then m[order[0]] else 0) + SumCounts(m, order[1..])
  }

  /** getTotalIssuesDetected: the sum of all counts (every issue is listed once
      in declaration order, so each count is added once). */
  function TotalIssuesDetected(s: AnalysisStatistics): int
  {
    SumCounts(s.issueOccurrenceCounts, AllIssues)
  }

  /** With no negative count, every issue's count is part of the total. */
  lemma {:induction false} CountWithinTotal(m: map<PerformanceIssue, int>, order: seq<PerformanceIssue>, i: PerformanceIssue)
    requires forall k :: k in m ==> m[k] >= 0
    requires i in m && i in order
    ensures m[i] <= SumCounts(m, order)
    ensures 0 <= SumCounts(m, order)
  {
    if order[0] == i {
      NonNegativeSum(m, order[1..]);
    } else {
      CountWithinTotal(m, order[1..], i);
    }
  }

  lemma {:induction false} NonNegativeSum(m: map<PerformanceIssue, int>, order: seq<PerformanceIssue>)
    requires forall k :: k in m ==> m[k] >= 0
    ensures 0 <= SumCounts(m, order)
  {
    if |order| > 0 {
      NonNegativeSum(m, order[1..]);
    }
  }

  /** Counts that are all zero sum to zero. */
  lemma {:induction false} ZeroCountsSumToZero(m: map<PerformanceIssue, int>, order: seq<PerformanceIssue>)
    requires forall k :: k in m ==> m[k] == 0
    ensures SumCounts(m, order) == 0
  {
    if |order| > 0 {
      ZeroCountsSumToZero(m, order[1..]);
    }
  }

  lemma TotalBoundsEachCount(s: AnalysisStatistics, i: PerformanceIssue)
    requires forall k :: k in s.issueOccurrenceCounts ==> s.issueOccurrenceCounts[k] >= 0
    requires i in s.issueOccurrenceCounts
    ensures s.issueOccurrenceCounts[i] <= TotalIssuesDetected(s)
  {
    EveryIssueListed(i);
    CountWithinTotal(s.issueOccurrenceCounts, AllIssues, i);
  }

  /** The order in which the map's entries are visited (a hash order, so a
      parameter): every key exactly once. */
  predicate EnumeratesKeys(m: map<PerformanceIssue, int>, order: seq<PerformanceIssue>)
  {
    && (forall i :: i in m <==> i in order)
    && (forall j, k :: 0 <= j < k < |order| ==> order[j] != order[k])
  }

  function CountOf(m: map<PerformanceIssue, int>): PerformanceIssue -> real
  {
    i => if i in m then m[i] as real else 0.0
  }

  /** getMostFrequentIssue: none for an empty map; otherwise an issue with the
      highest count, the first one visited among equals (a stream maximum keeps
      the earlier element on ties). */
  function MostFrequentIssue(s: AnalysisStatistics, order: seq<PerformanceIssue>): (r: Option<PerformanceIssue>)
    requires EnumeratesKeys(s.issueOccurrenceCounts, order)
    ensures r.None? <==> |s.issueOccurrenceCounts| == 0
    ensures r.Some? ==> r.value in s.issueOccurrenceCounts
    ensures r.Some? ==> forall i :: i in s.issueOccurrenceCounts ==>
              s.issueOccurrenceCounts[i] <= s.issueOccurrenceCounts[r.value]
    ensures r.Some? ==> forall j :: 0 <= j < |order| && order[j] == r.value ==>
              forall k :: 0 <= k < j ==> s.issueOccurrenceCounts[order[k]] < s.issueOccurrenceCounts[r.value]
  {
    var m := s.issueOccurrenceCounts;
    if |order| == 0 then
      assert forall i :: i !in m;
      assert m.Keys == {};
      None
    else
      assert order[0] in m;
      var j := Seqs.FirstMax(order, CountOf(m));
      assert forall i :: i in m ==> exists k :: 0 <= k < |order| && order[k] == i;
      Some(order[j])
  }
}
