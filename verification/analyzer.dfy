/** The bottleneck analyser: one frame in, the set of detected issues out, with
    the per-issue trackers, the analysis counter, the time of the last analysis
    and the believed game situation kept as an explicit state record. The clock
    (`now`) and the configuration are parameters. */
module Analyzer {
  import opened Basics
  import opened Issues
  import opened SeqStats
  import Sev = Severity
  import Ctx = Context
  import Frames
  import T = Tracker
  import RB = RingBuffer
  import Config
  import AS = AnalysisStats
  import Seqs = Sequences

  /** The hard-coded thresholds (the configurable ones come from the config). */
  const LowFpsThreshold: int := 30
  const CriticalFpsThreshold: int := 15
  const HighMemoryThreshold: real := 80.0
  const CriticalMemoryThreshold: real := 95.0
  const ExcessiveChunksThreshold: int := 1000
  const ExcessiveEntitiesThreshold: int := 500

  /** SHORT_TERM_WINDOW and LONG_TERM_WINDOW, in samples. */
  const ShortTermWindow: nat := 60
  const LongTermWindow: nat := 600

  // ---------------------------------------------------------------------------
  // The rules

  /** The fps level: CRITICAL_FPS at or below 15, else LOW_FPS at or below 30. */
  function FpsLevel(fps: int): (r: Option<PerformanceIssue>)
    ensures r.Some? ==> r.value == CriticalFps || r.value == LowFps
  {
    if fps <= CriticalFpsThreshold then Some(CriticalFps)
    else if fps <= LowFpsThreshold then Some(LowFps)
    else None
  }

  /** The heap level: CRITICAL_MEMORY_USAGE from 95 %, else HIGH_MEMORY_USAGE from 80 %. */
  function MemoryLevel(heapPercent: real): (r: Option<PerformanceIssue>)
    ensures r.Some? ==> r.value == CriticalMemoryUsage || r.value == HighMemoryUsage
  {
    if heapPercent >= CriticalMemoryThreshold then Some(CriticalMemoryUsage)
    else if heapPercent >= HighMemoryThreshold then Some(HighMemoryUsage)
    else None
  }

  /** The coefficient of variation sd / mean is above 0.3, with the standard
      deviation sd given by its square `variance` (the square root is left out):
      for a positive mean that is variance > 0.09 mean²; a zero mean divides by
      zero in floating point, giving +∞ (above) unless sd is 0 too (NaN, not
      above); a negative mean gives a quotient that is never positive. */
  predicate CvAboveLimit(mean: real, variance: real)
  {
    if mean > 0.0 then variance > 0.09 * mean * mean
    else if mean == 0.0 then variance > 0.0
    else false
  }

  /** analyzeFpsStability's verdict on the fps history (the current fps included):
      at least 60 values, and their coefficient of variation above 0.3. */
  predicate FpsUnstable(fps: seq<real>)
  {
    |fps| >= ShortTermWindow && CvAboveLimit(Mean(fps), SampleVariance(fps))
  }

  /** analyzeFrameTimeSpikes' verdict: at least 60 frame times, and the current one
      more than twice the mean of the newest 15 (which include the current one). */
  predicate FrameTimeSpike(frameTimeMs: real, frameTimes: seq<real>)
  {
    |frameTimes| >= ShortTermWindow && frameTimeMs > Mean(RB.Newest(frameTimes, ShortTermWindow / 4)) * 2.0
  }

  /** detectMemoryLeak's verdict: at least 600 heap samples, and a least-squares
      trend over the newest 600 above 0.1 percentage points per sample. */
  predicate LeakSuspected(heap: seq<real>)
  {
    |heap| >= LongTermWindow && T.Trend(heap, LongTermWindow) > 0.1
  }

  /** The three value histories the statistical rules read, each already holding
      the current frame's value. */
  datatype Histories = Histories(fps: seq<real>, frameTimes: seq<real>, heap: seq<real>)

  /** Whether the rule for issue `i` fires on frame `f`. */
  predicate Raised(i: PerformanceIssue, f: Frames.PerformanceFrame, cfg: Config.ProfilerConfig, h: Histories)
  {
    match i
    case CriticalFps => FpsLevel(f.fps) == Some(CriticalFps)
    case LowFps => FpsLevel(f.fps) == Some(LowFps)
    case FpsInstability => FpsUnstable(h.fps)
    case FrameTimeSpikes => FrameTimeSpike(Frames.FrameTimeMs(f), h.frameTimes)
    case CriticalMemoryUsage => MemoryLevel(f.memory.heapUsagePercent) == Some(CriticalMemoryUsage)
    case HighMemoryUsage => MemoryLevel(f.memory.heapUsagePercent) == Some(HighMemoryUsage)
    case MemoryLeak => LeakSuspected(h.heap)
    case GcPressure => f.memory.gcTime > 100 || f.memory.gcCollections > 5
    case OffHeapMemoryIssue => JavaDiv(f.memory.nonHeapUsed, 1024 * 1024) > 512
    case RenderLag => f.render.renderTimeMs > cfg.renderTimeThreshold as real
    case GpuBottleneck => f.render.renderTimeMs / Frames.FrameTimeMs(f) > 0.8
    case ShaderPerformance => f.render.shaderCompileTime > 50.0 || f.render.overdrawFactor > 3.0
    case ExcessiveDrawCalls => f.render.drawCalls > cfg.drawCallThreshold
    case ExcessiveChunks => f.chunks.loadedChunks > ExcessiveChunksThreshold
    case ChunkUpdateLag => f.chunks.chunkUpdates > 20
    case ExcessiveEntities => f.entities.totalEntities > ExcessiveEntitiesThreshold
    case EntityLag =>
      f.entities.entityTickTime > 10.0 || JavaDiv(f.entities.entityCount, Max(1, f.entities.renderedEntities)) > 5
    case TileEntityLag => f.entities.tileEntityCount > 1000 || f.entities.tileEntityTickTime > 5.0
    case NetworkLag => f.network.latencyMs > cfg.networkLatencyThreshold as real
    case PacketLoss => f.network.packetLoss > cfg.packetLossThreshold as real
    case NetworkBandwidth => f.network.bytesPerSecond > Config.BandwidthThreshold(cfg)
    case HighCpuUsage => f.world.tickTimeMs > 40.0
    case DiskIoBottleneck => f.chunks.chunkLoadTime > 100.0
    case ThreadContention => f.world.tickTimeMs > f.world.averageTickTime * 2.0
  }

  /** The six analyze* groups together: every issue whose rule fires. */
  function Detected(f: Frames.PerformanceFrame, cfg: Config.ProfilerConfig, h: Histories): (d: set<PerformanceIssue>)
    ensures forall i :: i in d <==> Raised(i, f, cfg, h)
  {
    assert forall i :: i in AllIssues by {
      forall i ensures i in AllIssues {
        EveryIssueListed(i);
      }
    }
    set i | i in AllIssues && Raised(i, f, cfg, h)
  }

  /** The two fps levels are exclusive: CRITICAL_FPS exactly at or below 15,
      LOW_FPS exactly above 15 and at or below 30. */
  lemma FpsLevelsExclusive(f: Frames.PerformanceFrame, cfg: Config.ProfilerConfig, h: Histories)
    ensures CriticalFps in Detected(f, cfg, h) <==> f.fps <= 15
    ensures LowFps in Detected(f, cfg, h) <==> 15 < f.fps <= 30
    ensures !(CriticalFps in Detected(f, cfg, h) && LowFps in Detected(f, cfg, h))
  {
  }

  /** The two heap levels are exclusive: CRITICAL_MEMORY_USAGE exactly from 95 %,
      HIGH_MEMORY_USAGE exactly from 80 % up to (not including) 95 %. */
  lemma MemoryLevelsExclusive(f: Frames.PerformanceFrame, cfg: Config.ProfilerConfig, h: Histories)
    ensures CriticalMemoryUsage in Detected(f, cfg, h) <==> f.memory.heapUsagePercent >= 95.0
    ensures HighMemoryUsage in Detected(f, cfg, h) <==> 80.0 <= f.memory.heapUsagePercent < 95.0
    ensures !(CriticalMemoryUsage in Detected(f, cfg, h) && HighMemoryUsage in Detected(f, cfg, h))
  {
  }

  /** The statistical rules stay silent until their history is long enough: 60
      samples for instability and spikes, 600 for a leak. */
  lemma StatisticalRulesNeedHistory(f: Frames.PerformanceFrame, cfg: Config.ProfilerConfig, h: Histories)
    ensures |h.fps| < 60 ==> FpsInstability !in Detected(f, cfg, h)
    ensures |h.frameTimes| < 60 ==> FrameTimeSpikes !in Detected(f, cfg, h)
    ensures |h.heap| < 600 ==> MemoryLeak !in Detected(f, cfg, h)
  {
  }

  /** For a positive mean, and for a negative one, the variance test is the
      coefficient-of-variation test on the standard deviation. */
  lemma CvMatchesRatio(mean: real, sd: real)
    requires sd >= 0.0 && mean != 0.0
    ensures CvAboveLimit(mean, sd * sd) <==> sd / mean > 0.3
  {
    if mean > 0.0 {
      var c := 0.3 * mean;
      assert 0.09 * mean * mean == c * c;
      SquareAboveIff(sd, c);
      QuotientAbove(sd, mean, 0.3);
    } else {
      QuotientOfNegative(sd, mean);
    }
  }

  /** For non-negative values, squares compare as the values do. */
  lemma SquareAboveIff(a: real, c: real)
    requires a >= 0.0 && c > 0.0
    ensures a * a > c * c <==> a > c
  {
    if a > c {
      ProductPositive(a - c, a + c);
      assert (a - c) * (a + c) == a * a - c * c;
    } else {
      assert a * a <= c * a by {
        if a > 0.0 {
          AboveIffScaledAbove(a, a, c);
        }
      }
      assert c * a <= c * c by {
        if a < c {
          ProductPositive(c, c - a);
          assert c * (c - a) == c * c - c * a;
        }
      }
    }
  }

  /** Values that never vary are never unstable. */
  lemma SteadyFpsIsStable(fps: seq<real>, c: real)
    requires |fps| > 0 && AllWithin(fps, c, c)
    ensures !FpsUnstable(fps)
  {
    MeanOfConstant(fps, c);
    assert SampleVariance(fps) == 0.0;
    if c > 0.0 {
      ProductPositive(c, c);
    }
  }

  /** With 600 heap samples whose newest 600 rise by exactly `d` per sample, a
      leak is suspected exactly when `d` exceeds 0.1; so a steady rise of 0.05
      per frame never raises MEMORY_LEAK. */
  lemma LeakIffSteepRise(heap: seq<real>, a: real, d: real)
    requires |heap| >= 600
    requires var w := RB.Newest(heap, 600);
             forall k :: 0 <= k < |w| ==> w[k] == a + d * k as real
    ensures LeakSuspected(heap) <==> d > 0.1
    ensures d == 0.05 ==> !LeakSuspected(heap)
  {
    var w := RB.Newest(heap, 600);
    T.ArithmeticWindowSlope(w, a, d);
    assert T.TrendWindow(heap, LongTermWindow) == w;
  }

  /** Once 60 frame times exist, FRAME_TIME_SPIKES is raised exactly when the
      current frame time is more than twice the mean of the newest 15, the
      current one among them. */
  lemma SpikeIffAboveTwiceRecentMean(f: Frames.PerformanceFrame, cfg: Config.ProfilerConfig, h: Histories)
    requires |h.frameTimes| >= 60
    ensures FrameTimeSpikes in Detected(f, cfg, h) <==>
              Frames.FrameTimeMs(f) > 2.0 * Mean(h.frameTimes[|h.frameTimes| - 15..])
  {
    assert RB.Newest(h.frameTimes, ShortTermWindow / 4) == h.frameTimes[|h.frameTimes| - 15..];
  }

  /** The GPU is blamed exactly when rendering takes more than 80 % of the frame
      time; at 1 fps or more that is render time above 800 / fps. */
  lemma GpuBoundIff(f: Frames.PerformanceFrame, cfg: Config.ProfilerConfig, h: Histories)
    ensures GpuBottleneck in Detected(f, cfg, h) <==> f.render.renderTimeMs > 0.8 * Frames.FrameTimeMs(f)
    ensures f.fps >= 1 ==>
              (GpuBottleneck in Detected(f, cfg, h) <==> f.render.renderTimeMs > 800.0 / f.fps as real)
  {
    QuotientAbove(f.render.renderTimeMs, Frames.FrameTimeMs(f), 0.8);
    if f.fps >= 1 {
      EightyPercentOfFrame(f.fps as real);
    }
  }

  /** 80 % of 1000 / n is 800 / n. */
  lemma EightyPercentOfFrame(n: real)
    requires n > 0.0
    ensures 0.8 * (1000.0 / n) == 800.0 / n
  {
  }

  /** With no negative entity count, the hidden-entity test is "at least six
      entities per rendered one" (the rendered count read as at least 1). */
  lemma EntityLagIff(f: Frames.PerformanceFrame, cfg: Config.ProfilerConfig, h: Histories)
    requires f.entities.entityCount >= 0
    ensures EntityLag in Detected(f, cfg, h) <==>
              f.entities.entityTickTime > 10.0 || f.entities.entityCount >= 6 * Max(1, f.entities.renderedEntities)
  {
    var c := f.entities.entityCount;
    var r := Max(1, f.entities.renderedEntities);
    assert JavaDiv(c, r) == c / r;
    assert c / r > 5 <==> c >= 6 * r by {
      DivAtLeast(c, r, 6);
    }
  }

  /** Euclidean division of a non-negative number by a positive one reaches `k`
      exactly when the dividend is at least `k` times the divisor. */
  lemma DivAtLeast(c: int, r: int, k: int)
    requires c >= 0 && r >= 1 && k >= 0
    ensures c / r >= k <==> c >= k * r
  {
    var q := c / r;
    assert c == q * r + c % r && 0 <= c % r < r;
    if q >= k {
      assert q * r >= k * r by {
        if q > k {
          assert q * r == k * r + (q - k) * r;
          ProductPositiveInt(q - k, r);
        }
      }
    } else {
      assert (q + 1) * r <= k * r by {
        if q + 1 < k {
          assert k * r == (q + 1) * r + (k - q - 1) * r;
          ProductPositiveInt(k - q - 1, r);
        }
      }
      assert (q + 1) * r == q * r + r;
    }
  }

  lemma ProductPositiveInt(a: int, b: int)
    requires a > 0 && b > 0
    ensures a * b > 0
  {
  }

  // ---------------------------------------------------------------------------
  // State

  /** The static tracker map always holds one valid tracker per issue. */
  predicate TrackersValid(m: map<PerformanceIssue, T.IssueTracker>)
  {
    forall i :: i in m && m[i].issue == i && T.Valid(m[i])
  }

  datatype AnalyzerState = AnalyzerState(
    trackers: map<PerformanceIssue, T.IssueTracker>,
    totalAnalysisCount: Int32,
    lastAnalysisTime: int,
    context: Ctx.AnalysisContext)

  predicate Valid(st: AnalyzerState)
  {
    TrackersValid(st.trackers)
  }

  /** The state after class initialisation: a fresh tracker per issue, no
      analysis yet, context UNKNOWN. */
  function Init(): (st: AnalyzerState)
    ensures Valid(st)
    ensures forall i :: st.trackers[i] == T.NewTracker(i)
    ensures st.totalAnalysisCount == 0 && st.lastAnalysisTime == 0 && st.context == Ctx.Unknown
  {
    assert forall i :: i in AllIssues by {
      forall i ensures i in AllIssues {
        EveryIssueListed(i);
      }
    }
    AnalyzerState(map i | i in AllIssues :: T.NewTracker(i), 0, 0, Ctx.Unknown)
  }

  /** updateAnalysisContext: a server frame is SERVER_PROCESSING; a client frame is
      HEAVY_WORLD above 500 loaded chunks, else ENTITY_HEAVY above 200 entities,
      else NORMAL_GAMEPLAY. */
  function ContextFor(f: Frames.PerformanceFrame): (c: Ctx.AnalysisContext)
    ensures c == Ctx.ServerProcessing <==> f.frameType != Frames.Client
    ensures c == Ctx.HeavyWorld <==> f.frameType == Frames.Client && f.chunks.loadedChunks > 500
    ensures c == Ctx.EntityHeavy <==>
              f.frameType == Frames.Client && f.chunks.loadedChunks <= 500 && f.entities.totalEntities > 200
    ensures c in {Ctx.ServerProcessing, Ctx.HeavyWorld, Ctx.EntityHeavy, Ctx.NormalGameplay}
  {
    if f.frameType == Frames.Client then
      if f.chunks.loadedChunks > 500 then Ctx.HeavyWorld
      else if f.entities.totalEntities > 200 then Ctx.EntityHeavy
      else Ctx.NormalGameplay
    else Ctx.ServerProcessing
  }

  /** The three values a frame contributes to the statistical histories. */
  datatype Sample = Sample(fps: real, frameTimeMs: real, heapPercent: real)

  function SampleOf(f: Frames.PerformanceFrame): Sample
  {
    Sample(f.fps as real, Frames.FrameTimeMs(f), f.memory.heapUsagePercent)
  }

  /** The value issue `i`'s tracker receives from a sample: the fps for
      FPS_INSTABILITY, the frame time for FRAME_TIME_SPIKES, the heap percentage
      for MEMORY_LEAK, and nothing for the others. */
  function SampleFor(i: PerformanceIssue, s: Sample): Option<real>
  {
    if i == FpsInstability then Some(s.fps)
    else if i == FrameTimeSpikes then Some(s.frameTimeMs)
    else if i == MemoryLeak then Some(s.heapPercent)
    else None
  }

  /** One tracker's addDataPoint call, if it gets a value. */
  function Feed(t: T.IssueTracker, v: Option<real>): (r: T.IssueTracker)
    requires T.Valid(t)
    ensures T.Valid(r) && r == t.(data := r.data)
    ensures v.None? ==> r == t
    ensures v.Some? ==> r == T.AddDataPoint(t, v.value)
  {
    if v.Some? then T.AddDataPoint(t, v.value) else t
  }

  /** The three addDataPoint calls of the statistical rules: every tracker is fed
      the value its issue takes from the sample. */
  function AddSamples(m: map<PerformanceIssue, T.IssueTracker>, s: Sample)
    : (r: map<PerformanceIssue, T.IssueTracker>)
    requires TrackersValid(m)
    ensures TrackersValid(r)
    ensures forall i :: r[i] == Feed(m[i], SampleFor(i, s))
  {
    var r := map i | i in m :: Feed(m[i], SampleFor(i, s));
    assert TrackersValid(r) by {
      forall i ensures i in r && r[i].issue == i && T.Valid(r[i]) {
        assert r[i] == Feed(m[i], SampleFor(i, s));
      }
    }
    r
  }

  /** Histories with one sample appended, each keeping its newest 1000 values
      (the data buffer's capacity). */
  function Extend(h: Histories, s: Sample): Histories
  {
    Histories(RB.Newest(h.fps + [s.fps], T.DataBufferSize),
              RB.Newest(h.frameTimes + [s.frameTimeMs], T.DataBufferSize),
              RB.Newest(h.heap + [s.heapPercent], T.DataBufferSize))
  }

  /** Sampling extends exactly the three histories the statistical rules read. */
  lemma SampledHistories(m: map<PerformanceIssue, T.IssueTracker>, s: Sample)
    requires TrackersValid(m)
    ensures HistoriesOf(AddSamples(m, s)) == Extend(HistoriesOf(m), s)
  {
    var r := AddSamples(m, s);
    var h := HistoriesOf(m);
    assert r[FpsInstability] == Feed(m[FpsInstability], Some(s.fps));
    FedHistory(m[FpsInstability], s.fps);
    assert r[FrameTimeSpikes] == Feed(m[FrameTimeSpikes], Some(s.frameTimeMs));
    FedHistory(m[FrameTimeSpikes], s.frameTimeMs);
    assert r[MemoryLeak] == Feed(m[MemoryLeak], Some(s.heapPercent));
    FedHistory(m[MemoryLeak], s.heapPercent);
    assert HistoriesOf(r) == Histories(r[FpsInstability].data, r[FrameTimeSpikes].data, r[MemoryLeak].data);
  }

  lemma FedHistory(t: T.IssueTracker, v: real)
    requires T.Valid(t)
    ensures Feed(t, Some(v)).data == RB.Newest(t.data + [v], T.DataBufferSize)
  {
  }

  /** The histories the statistical rules read from the trackers. */
  function HistoriesOf(m: map<PerformanceIssue, T.IssueTracker>): Histories
    requires TrackersValid(m)
  {
    Histories(m[FpsInstability].data, m[FrameTimeSpikes].data, m[MemoryLeak].data)
  }

  /** updateIssueTrackers: every issue gets exactly one call stamped with the
      frame's time, an occurrence if it was detected and a resolution otherwise. */
  function UpdateIssueTrackers(m: map<PerformanceIssue, T.IssueTracker>, detected: set<PerformanceIssue>, ts: int)
    : (r: map<PerformanceIssue, T.IssueTracker>)
    requires TrackersValid(m)
    ensures TrackersValid(r)
    ensures forall i :: r[i] == Outcome(m[i], i in detected, ts)
  {
    var r := map i | i in m :: Outcome(m[i], i in detected, ts);
    assert TrackersValid(r) by {
      forall i ensures i in r && r[i].issue == i && T.Valid(r[i]) {
        assert r[i] == Outcome(m[i], i in detected, ts);
      }
    }
    r
  }

  /** One tracker's call: an occurrence or a resolution at `ts`. */
  function Outcome(t: T.IssueTracker, occurred: bool, ts: int): (r: T.IssueTracker)
    requires T.Valid(t)
    ensures T.Valid(r) && r.issue == t.issue && r.data == t.data
    ensures r.totalOccurrences == t.totalOccurrences + (if occurred then 1 else 0)
    ensures occurred ==> r.lastOccurrence == ts
    ensures !occurred ==> r.lastResolution == ts
  {
    if occurred then T.RecordOccurrence(t, ts) else T.RecordResolution(t, ts)
  }

  /** analyzeFrame: a missing frame or disabled analysis detects nothing and
      changes nothing. Otherwise the counter advances (32-bit), the time and the
      context are recorded, the samples are added, the rules run against the
      extended histories, and every tracker records the outcome. */
  function AnalyzeFrame(st: AnalyzerState, frame: Option<Frames.PerformanceFrame>, enabled: bool,
                        cfg: Config.ProfilerConfig, now: int)
    : (r: (set<PerformanceIssue>, AnalyzerState))
    requires Valid(st)
    ensures Valid(r.1)
    ensures frame.None? || !enabled ==> r == ({}, st)
    ensures frame.Some? && enabled ==>
              var f := frame.value;
              && r.0 == Detected(f, cfg, HistoriesOf(AddSamples(st.trackers, SampleOf(f))))
              && r.1.totalAnalysisCount == Wrap32(st.totalAnalysisCount + 1)
              && r.1.lastAnalysisTime == now
              && r.1.context == ContextFor(f)
  {
    if frame.None? || !enabled then ({}, st)
    else
      var f := frame.value;
      var sampled := AddSamples(st.trackers, SampleOf(f));
      var detected := Detected(f, cfg, HistoriesOf(sampled));
      (detected, AnalyzerState(UpdateIssueTrackers(sampled, detected, f.timestamp),
                               Wrap32(st.totalAnalysisCount + 1), now, ContextFor(f)))
  }

  /** One occurrence is counted for each detected issue and none for the others;
      a detected issue's last occurrence, and an undetected one's last
      resolution, become the frame's time. */
  lemma AnalysisCountsOccurrences(st: AnalyzerState, f: Frames.PerformanceFrame, cfg: Config.ProfilerConfig, now: int)
    requires Valid(st)
    ensures var (d, st') := AnalyzeFrame(st, Some(f), true, cfg, now);
            forall i ::
              && st'.trackers[i].totalOccurrences == st.trackers[i].totalOccurrences + (if i in d then 1 else 0)
              && (i in d ==> st'.trackers[i].lastOccurrence == f.timestamp)
              && (i !in d ==> st'.trackers[i].lastResolution == f.timestamp)
  {
    var sampled := AddSamples(st.trackers, SampleOf(f));
    var r := AnalyzeFrame(st, Some(f), true, cfg, now);
    forall i
      ensures && r.1.trackers[i].totalOccurrences == st.trackers[i].totalOccurrences + (if i in r.0 then 1 else 0)
              && (i in r.0 ==> r.1.trackers[i].lastOccurrence == f.timestamp)
              && (i !in r.0 ==> r.1.trackers[i].lastResolution == f.timestamp)
    {
      assert r.1.trackers[i] == Outcome(sampled[i], i in r.0, f.timestamp);
      assert sampled[i].totalOccurrences == st.trackers[i].totalOccurrences;
    }
  }

  /** Each analysed frame adds exactly one value to each of the three sampled
      histories (the buffer keeping its newest 1000), and the statistical rules
      judge the histories with that value as their newest. */
  lemma AnalysisExtendsHistories(st: AnalyzerState, f: Frames.PerformanceFrame, cfg: Config.ProfilerConfig, now: int)
    requires Valid(st)
    ensures var (d, st') := AnalyzeFrame(st, Some(f), true, cfg, now);
            var h := Extend(HistoriesOf(st.trackers), SampleOf(f));
            HistoriesOf(st'.trackers) == h && d == Detected(f, cfg, h)
  {
    var r := AnalyzeFrame(st, Some(f), true, cfg, now);
    var sampled := AddSamples(st.trackers, SampleOf(f));
    SampledHistories(st.trackers, SampleOf(f));
    assert r.1.trackers[FpsInstability] == Outcome(sampled[FpsInstability], FpsInstability in r.0, f.timestamp);
    assert r.1.trackers[FrameTimeSpikes] == Outcome(sampled[FrameTimeSpikes], FrameTimeSpikes in r.0, f.timestamp);
    assert r.1.trackers[MemoryLeak] == Outcome(sampled[MemoryLeak], MemoryLeak in r.0, f.timestamp);
  }

  /** Fewer than 59 fps values before the frame means no FPS_INSTABILITY for it,
      and fewer than 599 heap values means no MEMORY_LEAK. */
  lemma ShortHistoryRaisesNothing(st: AnalyzerState, f: Frames.PerformanceFrame, cfg: Config.ProfilerConfig, now: int)
    requires Valid(st)
    ensures |st.trackers[FpsInstability].data| < 59 ==> FpsInstability !in AnalyzeFrame(st, Some(f), true, cfg, now).0
    ensures |st.trackers[FrameTimeSpikes].data| < 59 ==> FrameTimeSpikes !in AnalyzeFrame(st, Some(f), true, cfg, now).0
    ensures |st.trackers[MemoryLeak].data| < 599 ==> MemoryLeak !in AnalyzeFrame(st, Some(f), true, cfg, now).0
  {
    var sampled := AddSamples(st.trackers, SampleOf(f));
    var h := HistoriesOf(sampled);
    assert |h.fps| <= |st.trackers[FpsInstability].data| + 1;
    assert |h.frameTimes| <= |st.trackers[FrameTimeSpikes].data| + 1;
    assert |h.heap| <= |st.trackers[MemoryLeak].data| + 1;
    StatisticalRulesNeedHistory(f, cfg, h);
    assert AnalyzeFrame(st, Some(f), true, cfg, now).0 == Detected(f, cfg, h);
  }

  // ---------------------------------------------------------------------------
  // Suggestion requests

  /** The severity gate: HIGH or CRITICAL. */
  predicate RequestsSuggestion(i: PerformanceIssue)
  {
    Sev.Ordinal(SeverityOf(i)) >= Sev.Ordinal(Sev.High)
  }

  /** generateOptimizationSuggestions' choice of issues: the detected ones of
      severity HIGH or above, in the set's iteration order `order` (a hash order,
      so a parameter). */
  function SuggestionRequests(detected: set<PerformanceIssue>, order: seq<PerformanceIssue>)
    : (r: seq<PerformanceIssue>)
    ensures forall i :: i in r <==> i in order && i in detected && RequestsSuggestion(i)
    ensures forall i :: i in r ==> i in HighOrAboveList
    ensures Seqs.Distinct(order) ==> Seqs.Distinct(r)
  {
    var p := i => i in detected && RequestsSuggestion(i);
    assert Seqs.Distinct(order) ==> Seqs.Distinct(Seqs.Filter(order, p)) by {
      if Seqs.Distinct(order) {
        Seqs.FilterKeepsDistinct(order, p);
      }
    }
    assert forall i :: RequestsSuggestion(i) ==> i in HighOrAboveList by {
      forall i ensures RequestsSuggestion(i) ==> i in HighOrAboveList {
        HighOrAbove(i);
      }
    }
    Seqs.Filter(order, p)
  }

  /** When `order` lists the detected set once each, every detected issue of
      severity HIGH or above is requested exactly once and no other issue is. */
  lemma EachSevereIssueRequestedOnce(detected: set<PerformanceIssue>, order: seq<PerformanceIssue>)
    requires Seqs.Distinct(order) && forall i :: i in order <==> i in detected
    ensures var r := SuggestionRequests(detected, order);
            && Seqs.Distinct(r)
            && (forall i :: i in r <==> i in detected && i in HighOrAboveList)
  {
    forall i ensures RequestsSuggestion(i) <==> i in HighOrAboveList {
      HighOrAbove(i);
    }
  }

  // ---------------------------------------------------------------------------
  // Statistics and reset

  /** getAnalysisStatistics: the counter, the last analysis time, the average
      analysis time (kept by a statistics helper that is not part of this model,
      so a parameter) and each issue's occurrence count. */
  function GetAnalysisStatistics(st: AnalyzerState, averageAnalysisTime: real): (s: AS.AnalysisStatistics)
    requires Valid(st)
    ensures s.totalAnalysisCount == st.totalAnalysisCount && s.lastAnalysisTime == st.lastAnalysisTime
    ensures forall i :: i in s.issueOccurrenceCounts
                        && s.issueOccurrenceCounts[i] == st.trackers[i].totalOccurrences
  {
    AS.AnalysisStatistics(st.totalAnalysisCount, st.lastAnalysisTime, averageAnalysisTime,
                          map i | i in st.trackers :: st.trackers[i].issue := st.trackers[i].totalOccurrences)
  }

  /** The analyser's statistics always name a most frequent issue, whatever
      order the map is visited in, and no issue's count exceeds the total. */
  lemma StatisticsAlwaysHaveAMostFrequentIssue(st: AnalyzerState, avg: real, order: seq<PerformanceIssue>)
    requires Valid(st)
    requires AS.EnumeratesKeys(GetAnalysisStatistics(st, avg).issueOccurrenceCounts, order)
    ensures AS.MostFrequentIssue(GetAnalysisStatistics(st, avg), order).Some?
    ensures forall i :: st.trackers[i].totalOccurrences <= AS.TotalIssuesDetected(GetAnalysisStatistics(st, avg))
  {
    var s := GetAnalysisStatistics(st, avg);
    assert CriticalFps in s.issueOccurrenceCounts;
    assert |s.issueOccurrenceCounts| != 0;
    forall i ensures st.trackers[i].totalOccurrences <= AS.TotalIssuesDetected(s) {
      AS.TotalBoundsEachCount(s, i);
    }
  }

  /** resetAnalysisData: every tracker back to fresh and the counter to 0; the
      time of the last analysis and the context are kept. */
  function ResetAnalysisData(st: AnalyzerState): (r: AnalyzerState)
    requires Valid(st)
    ensures Valid(r)
    ensures forall i :: r.trackers[i] == T.NewTracker(i)
    ensures r.totalAnalysisCount == 0
    ensures r.lastAnalysisTime == st.lastAnalysisTime && r.context == st.context
  {
    st.(trackers := map i | i in st.trackers :: T.Reset(st.trackers[i]), totalAnalysisCount := 0)
  }

  /** After a reset the statistics report no issue at all and a rate of 0. */
  lemma ResetClearsStatistics(st: AnalyzerState, avg: real, now: int)
    requires Valid(st)
    ensures var s := GetAnalysisStatistics(ResetAnalysisData(st), avg);
            AS.TotalIssuesDetected(s) == 0 && AS.AnalysisRate(s, now) == Some(0.0)
  {
    var s := GetAnalysisStatistics(ResetAnalysisData(st), avg);
    AS.ZeroCountsSumToZero(s.issueOccurrenceCounts, AllIssues);
  }
}
