# SmartProfiler core in Dafny

SmartProfiler is a Minecraft performance-profiler mod. Every collected
performance frame goes through three stages:

1. The bottleneck analyser checks the frame against a fixed set of rules:
   fps and heap levels, rendering, world, network and system load, and
   three statistical rules over the recent history (fps instability,
   frame-time spikes, memory-leak trend).
2. Each issue's tracker records whether the issue occurred or resolved.
3. For every severe issue the optimisation engine picks the best-scoring
   suggestion type and builds a suggestion:
   - the type must apply to the context and be compatible with the
     hardware, and it must not be on cooldown;
   - the score weighs an effectiveness matrix, the user's rating history,
     a hardware-specific preference and the severity of the moment;
   - the built suggestion is queued, may apply itself, and collects ratings
     that feed back into later scores.

Around this core sit several smaller parts:
- the configuration with its repair pass and change listeners;
- the hardware profile and its performance tier;
- the playstyle profile learned from sessions;
- the overlay's mode and position cycling;
- small colour, maths and Java-version utilities.

The model is purely functional:
- Every static registry becomes an explicit state record:
  - `Analyzer.AnalyzerState`: the trackers, counters and context;
  - `Engine.EngineState`: the queue, cooldown times, rating logs,
    preferences, mod list, counters and the hardware and playstyle profiles.
- Each mutating Java method becomes a function from the old state to the
  new one.
- The wall clock, hash-iteration orders, the JVM's processor count, system
  properties and whether a listener or action throws are parameters.
- Java `int` arithmetic is wrapped explicitly (`Wrap32`) where the model
  computes it: the analysis counter, colour packing, configuration repair,
  the bandwidth threshold, the analysis start time in the statistics and the
  render-distance suggestions. The remaining counters are unbounded
  integers; they are listed under "Left out".
- Java's truncating division and `(int)` casts are written out (`JavaDiv`,
  `Trunc`).
- `float` and `double` are modelled as `real`.

Files and modules:

| file | modules | Java counterpart |
|---|---|---|
| basics.dfy | Basics | Java arithmetic: `Option`, `Result`, 32-bit `int`, truncating division and casts |
| issues.dfy | Severity, Category, Issues, Context | IssueSeverity, IssueCategory, PerformanceIssue, AnalysisContext |
| frames.dfy | Frames | the fields of a performance frame that the core reads |
| ring_buffer.dfy | RingBuffer | the bounded FIFO buffers of the trackers |
| seq_stats.dfy, sequences.dfy | SeqStats, Sequences | sums, means, variances; filtering and the stable descending sort |
| tracker.dfy | Tracker | IssueTracker |
| analyzer.dfy | Analyzer | BottleneckAnalyzer |
| stats.dfy | OptimizationStats, AnalysisStats | OptimizationStatistics, AnalysisStatistics |
| config.dfy | Config | ProfilerConfig |
| config_listeners.dfy | ConfigListeners | ConfigChangeManager |
| suggestion_types.dfy | SuggestionTypes, Strings | SuggestionType, SuggestionCategory; `String` helpers |
| suggestion.dfy | Suggestion | OptimizationSuggestion and its Builder |
| suggestion_catalog.dfy | Catalog | the static tables of OptimizationEngine |
| effectiveness.dfy | Effectiveness | SuggestionEffectiveness |
| hardware.dfy | Hardware | HardwareProfile |
| playstyle.dfy | Playstyle | PlaystyleProfile |
| engine.dfy | Engine | OptimizationEngine |
| overlay.dfy | OverlayModes, OverlayPositions | OverlayMode, OverlayPosition |
| colors.dfy | Colors | ColorUtils |
| math_utils.dfy | MathUtils | MathUtils |
| system_info.dfy | SystemInfo | SystemInfoCollector (Java version detection) |

Three behaviours of the code that are easy to misread:
- A memory leak is flagged only when the least-squares slope of the newest
  600 heap samples exceeds 0.1 percentage points per sample. A steady rise of
  0.05 per frame is therefore not a leak (`Analyzer.LeakIffSteepRise`).
- The fps (30 and 15), heap (80 % and 95 %), chunk (1000) and entity (500)
  rules use constants fixed in the analyser. Only the render-time, draw-call,
  latency, packet-loss and bandwidth rules read the configuration, and they
  use its values unscaled. The analysis context's threshold multiplier is
  defined but no rule reads it.
- Rules are not isolated from each other. One `try` block surrounds the
  whole analysis.

## Model

| member | source | states |
|---|---|---|
| Severity.Weight | src/main/java/dev/hiba550/smartprofiler/data/models/IssueSeverity.java:12-29 | a severity's weight is one more than its position in LOW < MEDIUM < HIGH < CRITICAL, so weights lie in 1..4 |
| Severity.WeightOrder | src/main/java/dev/hiba550/smartprofiler/data/models/IssueSeverity.java:12-29 | weights strictly increase with the severity order, and the order is total |
| Category.Weight | src/main/java/dev/hiba550/smartprofiler/data/models/IssueCategory.java:11-29 | RENDERING alone weighs 4, MEMORY alone 3, WORLD and SYSTEM 2, NETWORK alone 1 |
| Issues.Ordinal | src/main/java/dev/hiba550/smartprofiler/data/models/PerformanceIssue.java:16-91 | the issue table lists every issue once, at its declaration position |
| Issues.PriorityScore | src/main/java/dev/hiba550/smartprofiler/data/models/PerformanceIssue.java:125-127 | the score lies in 11..44; its tens digit is the severity weight and its units digit the category weight |
| Issues.PriorityRanksSeverityFirst | src/main/java/dev/hiba550/smartprofiler/data/models/PerformanceIssue.java:125-127 | a more severe issue always has a strictly higher priority score, whatever the categories |
| Issues.IsCritical | src/main/java/dev/hiba550/smartprofiler/data/models/PerformanceIssue.java:132-134 | exactly CRITICAL_FPS and CRITICAL_MEMORY_USAGE are critical |
| Issues.IssuesInCategory | src/main/java/dev/hiba550/smartprofiler/data/models/PerformanceIssue.java:139-143 | exactly the issues of the category, in declaration order |
| Issues.CategoriesPartitionIssues | src/main/java/dev/hiba550/smartprofiler/data/models/PerformanceIssue.java:139-143 | every issue is in its own category's list and in no other |
| Issues.IssuesWithMinSeverity | src/main/java/dev/hiba550/smartprofiler/data/models/PerformanceIssue.java:148-152 | exactly the issues at least as severe as the bound, in declaration order |
| Issues.HighOrAboveIssues | src/main/java/dev/hiba550/smartprofiler/data/models/PerformanceIssue.java:148-152 | the issues of severity HIGH or above are CRITICAL_FPS, FRAME_TIME_SPIKES, CRITICAL_MEMORY_USAGE, MEMORY_LEAK, GPU_BOTTLENECK and THREAD_CONTENTION |
| Context.ThresholdMultiplier | src/main/java/dev/hiba550/smartprofiler/data/analysis/AnalysisContext.java:12-38 | the multiplier lies in 1.0..1.5; it is 1.0 exactly for UNKNOWN and NORMAL_GAMEPLAY, and 1.5 exactly for HEAVY_WORLD |
| Frames.FrameTimeMs | src/main/java/dev/hiba550/smartprofiler/data/analysis/BottleneckAnalyzer.java:327 | the frame time lies in (0, 1000]; times the fps it is 1000 ms; an fps below 1 counts as 1 |
| RingBuffer.Push | src/main/java/dev/hiba550/smartprofiler/data/analysis/IssueTracker.java:24-30 | adding to a full buffer drops the oldest value; the result is the newest `cap` values, ending with the new one |
| RingBuffer.PushAllKeepsNewest | src/main/java/dev/hiba550/smartprofiler/data/analysis/IssueTracker.java:24-30 | after any stream of additions, the buffer holds exactly the newest `cap` values of its old contents followed by the stream |
| Tracker.NewTracker | src/main/java/dev/hiba550/smartprofiler/data/analysis/IssueTracker.java:45-50 | a new tracker has empty buffers and zero counters and timestamps |
| Tracker.Reset | src/main/java/dev/hiba550/smartprofiler/data/analysis/IssueTracker.java:306-318 | reset gives a fresh tracker for the same issue: not active, with frequency and average duration 0 |
| Tracker.AddDataPoint | src/main/java/dev/hiba550/smartprofiler/data/analysis/IssueTracker.java:55-58 | the value buffer becomes the newest 1000 values ending with the new one; nothing else changes |
| Tracker.RecordOccurrence | src/main/java/dev/hiba550/smartprofiler/data/analysis/IssueTracker.java:63-71 | one more occurrence at `ts`; the first occurrence is set only while it is still unset; nothing else changes |
| Tracker.RecordResolution | src/main/java/dev/hiba550/smartprofiler/data/analysis/IssueTracker.java:76-85 | the total duration never decreases; it grows, by exactly the time since the last occurrence, iff an occurrence precedes `ts` |
| Tracker.ResolutionDeactivates | src/main/java/dev/hiba550/smartprofiler/data/analysis/IssueTracker.java:216-218 | after a resolution the issue is active iff its last occurrence is later; a later occurrence makes it active |
| Tracker.OccurrenceFrequency | src/main/java/dev/hiba550/smartprofiler/data/analysis/IssueTracker.java:186-199 | the frequency is never negative; it is positive iff there is a positive span of occurrences, and then it is occurrences per minute of that span |
| Tracker.AverageDuration | src/main/java/dev/hiba550/smartprofiler/data/analysis/IssueTracker.java:204-211 | the average times the occurrence count is the total duration; 0 with no occurrence; never negative |
| Tracker.CalculateStatistics | src/main/java/dev/hiba550/smartprofiler/data/analysis/IssueTracker.java:257-294 | the two loops compute the mean and the sample variance (divisor n - 1) of the buffered values |
| Tracker.RecentAverage | src/main/java/dev/hiba550/smartprofiler/data/analysis/IssueTracker.java:127-143 | the mean of the newest `count` values; 0 for an empty buffer or a negative count; no value (NaN) for a zero count |
| Tracker.AccumulateSums | src/main/java/dev/hiba550/smartprofiler/data/analysis/IssueTracker.java:158-170 | the loop accumulates the regression sums of the window, one point per value, oldest first |
| Tracker.CalculateTrend | src/main/java/dev/hiba550/smartprofiler/data/analysis/IssueTracker.java:149-181 | the trend is the least-squares slope of the newest values, or 0 below two points |
| Tracker.XSumsClosedForm | src/main/java/dev/hiba550/smartprofiler/data/analysis/IssueTracker.java:158-170 | the x sums of n points are n(n-1)/2 and n(n-1)(2n-1)/6 |
| Tracker.WindowDenominatorPositive | src/main/java/dev/hiba550/smartprofiler/data/analysis/IssueTracker.java:172-180 | from two points on, the slope's denominator is positive, so the slope is defined |
| Tracker.ArithmeticWindowSlope | src/main/java/dev/hiba550/smartprofiler/data/analysis/IssueTracker.java:149-181 | a window that rises by exactly d per sample has trend d |
| Tracker.ConstantWindowSlope | src/main/java/dev/hiba550/smartprofiler/data/analysis/IssueTracker.java:149-181 | a constant window has trend 0 |
| Analyzer.FpsLevel | src/main/java/dev/hiba550/smartprofiler/data/analysis/BottleneckAnalyzer.java:117-141 | the fps rules raise at most one of CRITICAL_FPS and LOW_FPS |
| Analyzer.MemoryLevel | src/main/java/dev/hiba550/smartprofiler/data/analysis/BottleneckAnalyzer.java:146-177 | the heap rules raise at most one of CRITICAL_MEMORY_USAGE and HIGH_MEMORY_USAGE |
| Analyzer.Detected | src/main/java/dev/hiba550/smartprofiler/data/analysis/BottleneckAnalyzer.java:84-90 | an issue is detected iff its rule fires on the frame |
| Analyzer.FpsLevelsExclusive | src/main/java/dev/hiba550/smartprofiler/data/analysis/BottleneckAnalyzer.java:117-141 | CRITICAL_FPS iff fps <= 15, LOW_FPS iff 15 < fps <= 30, never both |
| Analyzer.MemoryLevelsExclusive | src/main/java/dev/hiba550/smartprofiler/data/analysis/BottleneckAnalyzer.java:146-177 | CRITICAL_MEMORY_USAGE iff heap >= 95 %, HIGH_MEMORY_USAGE iff 80 % <= heap < 95 %, never both |
| Analyzer.StatisticalRulesNeedHistory | src/main/java/dev/hiba550/smartprofiler/data/analysis/BottleneckAnalyzer.java:300-370 | instability and spikes need 60 samples, and a leak 600, before they can fire |
| Analyzer.CvMatchesRatio | src/main/java/dev/hiba550/smartprofiler/data/analysis/BottleneckAnalyzer.java:300-321 | the square-free variance test agrees with "standard deviation over mean above 0.3" for any non-zero mean |
| Analyzer.SteadyFpsIsStable | src/main/java/dev/hiba550/smartprofiler/data/analysis/BottleneckAnalyzer.java:300-321 | an fps history that never varies is never unstable |
| Analyzer.LeakIffSteepRise | src/main/java/dev/hiba550/smartprofiler/data/analysis/BottleneckAnalyzer.java:351-370 | for a heap history rising by exactly d per sample, a leak is suspected iff d > 0.1; a rise of 0.05 is no leak |
| Analyzer.SpikeIffAboveTwiceRecentMean | src/main/java/dev/hiba550/smartprofiler/data/analysis/BottleneckAnalyzer.java:326-346 | with 60 frame times, a spike is raised iff the current frame time exceeds twice the mean of the newest 15 |
| Analyzer.GpuBoundIff | src/main/java/dev/hiba550/smartprofiler/data/analysis/BottleneckAnalyzer.java:401-414 | GPU_BOTTLENECK iff the render time exceeds 80 % of the frame time, i.e. 800 / fps ms from 1 fps on |
| Analyzer.EntityLagIff | src/main/java/dev/hiba550/smartprofiler/data/analysis/BottleneckAnalyzer.java:444-450 | the entity rule fires iff the tick time exceeds 10 ms or there are at least six entities per rendered one |
| Analyzer.Init | src/main/java/dev/hiba550/smartprofiler/data/analysis/BottleneckAnalyzer.java:55-60 | class initialisation gives a fresh tracker per issue, no analysis and context UNKNOWN |
| Analyzer.ContextFor | src/main/java/dev/hiba550/smartprofiler/data/analysis/BottleneckAnalyzer.java:516-529 | a server frame gives SERVER_PROCESSING; a client frame gives HEAVY_WORLD above 500 chunks, else ENTITY_HEAVY above 200 entities, else NORMAL_GAMEPLAY |
| Analyzer.AddSamples | src/main/java/dev/hiba550/smartprofiler/data/analysis/BottleneckAnalyzer.java:300-370 | every tracker is fed the value its statistical rule samples from the frame, and only that |
| Analyzer.SampledHistories | src/main/java/dev/hiba550/smartprofiler/data/analysis/BottleneckAnalyzer.java:300-370 | sampling extends exactly the three histories the statistical rules read |
| Analyzer.UpdateIssueTrackers | src/main/java/dev/hiba550/smartprofiler/data/analysis/BottleneckAnalyzer.java:534-544 | every issue's tracker gets one call stamped with the frame time: an occurrence if detected, a resolution otherwise |
| Analyzer.Outcome | src/main/java/dev/hiba550/smartprofiler/data/analysis/BottleneckAnalyzer.java:538-542 | an occurrence adds one to the count and sets the last occurrence; a resolution sets the last resolution |
| Analyzer.AnalyzeFrame | src/main/java/dev/hiba550/smartprofiler/data/analysis/BottleneckAnalyzer.java:69-112 | a missing frame or disabled analysis changes nothing; otherwise the 32-bit counter advances, time and context are recorded, and the rules judge the extended histories |
| Analyzer.AnalysisCountsOccurrences | src/main/java/dev/hiba550/smartprofiler/data/analysis/BottleneckAnalyzer.java:69-112 | each detected issue gains exactly one occurrence at the frame time; every other issue records a resolution |
| Analyzer.AnalysisExtendsHistories | src/main/java/dev/hiba550/smartprofiler/data/analysis/BottleneckAnalyzer.java:69-112 | each analysis appends one value to each sampled history, and the rules judge the histories ending with it |
| Analyzer.ShortHistoryRaisesNothing | src/main/java/dev/hiba550/smartprofiler/data/analysis/BottleneckAnalyzer.java:300-370 | with fewer than 59 (or 599) earlier samples, the frame raises no instability or spike (or leak) |
| Analyzer.SuggestionRequests | src/main/java/dev/hiba550/smartprofiler/data/analysis/BottleneckAnalyzer.java:549-558 | exactly the detected issues of severity HIGH or above are requested, in iteration order, without repeats |
| Analyzer.EachSevereIssueRequestedOnce | src/main/java/dev/hiba550/smartprofiler/data/analysis/BottleneckAnalyzer.java:549-558 | when the order lists the detected set, every severe detected issue is requested exactly once |
| Analyzer.GetAnalysisStatistics | src/main/java/dev/hiba550/smartprofiler/data/analysis/BottleneckAnalyzer.java:585-596 | the statistics carry the counter, the last time and each issue's occurrence count |
| Analyzer.StatisticsAlwaysHaveAMostFrequentIssue | src/main/java/dev/hiba550/smartprofiler/data/analysis/AnalysisStatistics.java:36-50 | the analyser's statistics always name a most frequent issue, and no count exceeds the total |
| Analyzer.ResetAnalysisData | src/main/java/dev/hiba550/smartprofiler/data/analysis/BottleneckAnalyzer.java:608-614 | every tracker becomes fresh and the counter 0; the last time and the context are kept |
| Analyzer.ResetClearsStatistics | src/main/java/dev/hiba550/smartprofiler/data/analysis/BottleneckAnalyzer.java:608-614 | after a reset the statistics count no issue and report a rate of 0 |
| AnalysisStats.AnalysisRate | src/main/java/dev/hiba550/smartprofiler/data/analysis/AnalysisStatistics.java:24-31 | 0 before any analysis; otherwise the rate times the uptime is 1000 times the count; no value for a zero uptime |
| AnalysisStats.RateAtMostTwentyPerSecond | src/main/java/dev/hiba550/smartprofiler/data/analysis/AnalysisStatistics.java:24-31 | for up to 42 million analyses and a clock not behind the last one, the rate is positive and at most 20 analyses per second |
| AnalysisStats.TotalBoundsEachCount | src/main/java/dev/hiba550/smartprofiler/data/analysis/AnalysisStatistics.java:46-50 | with no negative count, every issue's count is part of the total |
| AnalysisStats.ZeroCountsSumToZero | src/main/java/dev/hiba550/smartprofiler/data/analysis/AnalysisStatistics.java:46-50 | counts that are all zero total zero |
| AnalysisStats.MostFrequentIssue | src/main/java/dev/hiba550/smartprofiler/data/analysis/AnalysisStatistics.java:36-41 | none iff the map is empty; otherwise an issue of maximal count, the first visited among equals |
| OptimizationStats.ApplicationRate | src/main/java/dev/hiba550/smartprofiler/data/optimization/OptimizationStatistics.java:22-27 | 0 before anything was generated; otherwise the rate times the generated count is the applied count |
| OptimizationStats.RateIsAFraction | src/main/java/dev/hiba550/smartprofiler/data/optimization/OptimizationStatistics.java:22-34 | with sensible counts the rate is in [0, 1]; performing well iff over 30 % applied and under ten pending |
| Config.ValidateAndFix | src/main/java/dev/hiba550/smartprofiler/config/ProfilerConfig.java:367-397 | the result satisfies the repair invariants; each rule fires only on a field that is out of line; all other settings are unchanged |
| Config.RepairedCriticalFps | src/main/java/dev/hiba550/smartprofiler/config/ProfilerConfig.java:369-372 | kept when already below the low threshold; otherwise max(5, low - 5); below the low threshold whenever that exceeds 5 |
| Config.RepairedCriticalMemory | src/main/java/dev/hiba550/smartprofiler/config/ProfilerConfig.java:374-377 | kept when already above the high threshold; otherwise min(99, high + 5); above the high threshold whenever that is at most 98 |
| Config.RepairedThreadCount | src/main/java/dev/hiba550/smartprofiler/config/ProfilerConfig.java:385-389 | the thread count never exceeds the processors, and is unchanged when it did not |
| Config.ValidateAndFixIdempotent | src/main/java/dev/hiba550/smartprofiler/config/ProfilerConfig.java:367-397 | repairing a repaired configuration changes nothing |
| Config.ResetToDefaults | src/main/java/dev/hiba550/smartprofiler/config/ProfilerConfig.java:402-461 | the defaults order the thresholds, and repairing them is a no-op on any machine with two or more processors |
| Config.OverlayOpacity | src/main/java/dev/hiba550/smartprofiler/config/ProfilerConfig.java:504-506 | the stored percentage as a fraction; a percentage in 10..100 gives 0.1..1.0 |
| Config.BandwidthThresholdAsWritten | src/main/java/dev/hiba550/smartprofiler/config/ProfilerConfig.java:565-567 | the byte threshold is the megabyte count times 2^20, wrapped into 32 bits |
| Config.BandwidthThreshold | src/main/java/dev/hiba550/smartprofiler/config/ProfilerConfig.java:565-567 | the intended byte threshold is exactly the megabyte count times 2^20, positive for a positive count |
| Config.BandwidthAgreesIff | src/main/java/dev/hiba550/smartprofiler/config/ProfilerConfig.java:565-567 | the written and the intended threshold agree iff the count lies in -2048..2047 MB |
| Config.BandwidthOverflowAt2048 | src/main/java/dev/hiba550/smartprofiler/config/ProfilerConfig.java:565-567 | 2048 MB becomes -2^31 bytes as written, against the intended 2^31 |
| ConfigListeners.Register | src/main/java/dev/hiba550/smartprofiler/config/ConfigChangeManager.java:26-32 | a null or already registered listener is ignored; a new one joins the end; the list stays free of repeats |
| ConfigListeners.RemoveFirst | src/main/java/dev/hiba550/smartprofiler/config/ConfigChangeManager.java:38 | removing drops one copy of the listener if present and keeps the list otherwise |
| ConfigListeners.Unregister | src/main/java/dev/hiba550/smartprofiler/config/ConfigChangeManager.java:37-42 | reports true iff the listener was registered, and then removes one copy of it |
| ConfigListeners.UnregisterRemoves | src/main/java/dev/hiba550/smartprofiler/config/ConfigChangeManager.java:37-42 | in a repeat-free list, an unregistered listener is gone and all others stay |
| ConfigListeners.RegisterThenUnregister | src/main/java/dev/hiba550/smartprofiler/config/ConfigChangeManager.java:26-42 | registering a new listener and unregistering it restores the list |
| ConfigListeners.RegisterIdempotent | src/main/java/dev/hiba550/smartprofiler/config/ConfigChangeManager.java:26-32 | registering twice is registering once |
| ConfigListeners.NotifyChange | src/main/java/dev/hiba550/smartprofiler/config/ConfigChangeManager.java:47-55 | every listener is called once, in order, with the same arguments; a throwing listener is logged and the loop goes on |
| ConfigListeners.NotifyBooleanChange | src/main/java/dev/hiba550/smartprofiler/config/ConfigChangeManager.java:60-64 | no call at all when the value did not change; otherwise a full notification |
| ConfigListeners.NotifyIntegerChange | src/main/java/dev/hiba550/smartprofiler/config/ConfigChangeManager.java:69-73 | no call at all when the value did not change; otherwise a full notification |
| ConfigListeners.Clear | src/main/java/dev/hiba550/smartprofiler/config/ConfigChangeManager.java:78-81 | no listener is left |
| ConfigListeners.CountAfterRegister | src/main/java/dev/hiba550/smartprofiler/config/ConfigChangeManager.java:26-32 | the count grows by one iff a present, new listener is registered; after clearing it is 0 |
| Suggestion.Build | src/main/java/dev/hiba550/smartprofiler/data/optimization/OptimizationSuggestion.java:287-294 | the build succeeds iff type, title, description and category are all given; the suggestion then carries the builder's values and is unapplied and unrated |
| Suggestion.DefaultsReachTheSuggestion | src/main/java/dev/hiba550/smartprofiler/data/optimization/OptimizationSuggestion.java:192-204 | a builder given only the required parts yields priority 5, difficulty 3, impact 3, 10 minutes and no auto-implementation |
| Suggestion.MarkAsApplied | src/main/java/dev/hiba550/smartprofiler/data/optimization/OptimizationSuggestion.java:93-96 | the suggestion becomes applied at `now` and nothing else changes |
| Suggestion.RecordFeedback | src/main/java/dev/hiba550/smartprofiler/data/optimization/OptimizationSuggestion.java:101-104 | the rating is clamped into 1..5 and the feedback stored; nothing else changes |
| Suggestion.LastFeedbackWins | src/main/java/dev/hiba550/smartprofiler/data/optimization/OptimizationSuggestion.java:101-104 | recording feedback twice leaves only the second |
| Suggestion.ExecuteAutoImplementation | src/main/java/dev/hiba550/smartprofiler/data/optimization/OptimizationSuggestion.java:109-121 | reports success iff the suggestion is auto-implementable, has an action and the action does not throw; only then is it marked applied |
| Suggestion.DifficultyDescription | src/main/java/dev/hiba550/smartprofiler/data/optimization/OptimizationSuggestion.java:126-135 | "Unknown" exactly for difficulties outside 1..5 |
| Suggestion.ImpactDescription | src/main/java/dev/hiba550/smartprofiler/data/optimization/OptimizationSuggestion.java:140-149 | "Unknown Impact" exactly for impacts outside 1..5 |
| Suggestion.DescriptionsIdentifyLevels | src/main/java/dev/hiba550/smartprofiler/data/optimization/OptimizationSuggestion.java:126-149 | on the 1..5 scales, equal descriptions mean equal levels |
| Suggestion.ExpiryBoundary | src/main/java/dev/hiba550/smartprofiler/data/optimization/OptimizationSuggestion.java:154-163 | a suggestion expires iff 1441 whole minutes have passed since its creation |
| Suggestion.HashKey | src/main/java/dev/hiba550/smartprofiler/data/optimization/OptimizationSuggestion.java:174-176 | the hash is computed from the type and the related issue |
| Suggestion.EqualityMatchesHash | src/main/java/dev/hiba550/smartprofiler/data/optimization/OptimizationSuggestion.java:166-176 | equality is equality of hash keys; feedback, application, title, priority and time never affect it |
| Catalog.Cooldown | src/main/java/dev/hiba550/smartprofiler/data/optimization/OptimizationEngine.java:56-65 | exactly eight types have a cooldown, each of at least three minutes |
| Catalog.Candidates | src/main/java/dev/hiba550/smartprofiler/data/optimization/OptimizationEngine.java:150-229 | a tabled issue has 4 or 5 distinct candidate types, never GENERAL_PERFORMANCE_TIPS |
| Catalog.BaseScore | src/main/java/dev/hiba550/smartprofiler/data/optimization/OptimizationEngine.java:317-347 | every matrix score lies in 4.0..9.5 |
| Catalog.BaseScoreShape | src/main/java/dev/hiba550/smartprofiler/data/optimization/OptimizationEngine.java:317-347 | only fps, memory and rendering issues tell types apart; scores of 8 or more belong exactly to the highly effective pairs |
| Catalog.SeverityMultiplier | src/main/java/dev/hiba550/smartprofiler/data/optimization/OptimizationEngine.java:352-374 | the product of the severity, fps and heap factors lies in 1.0..5.76 |
| Catalog.SeverityMultiplierMonotone | src/main/java/dev/hiba550/smartprofiler/data/optimization/OptimizationEngine.java:352-374 | a frame that is worse on fps and heap never lowers the multiplier; the maximum 5.76 is reached for a CRITICAL issue below 15 fps above 90 % heap |
| Catalog.Priority | src/main/java/dev/hiba550/smartprofiler/data/optimization/OptimizationEngine.java:790-811 | the priority lies in 3..10, is the raw score unless clamped at 10, and is at least 9 for a CRITICAL issue below 15 fps |
| Catalog.PriorityMonotone | src/main/java/dev/hiba550/smartprofiler/data/optimization/OptimizationEngine.java:790-811 | lower fps, higher heap use or a more severe issue never lower the priority |
| Catalog.CategoryOf | src/main/java/dev/hiba550/smartprofiler/data/optimization/OptimizationEngine.java:816-836 | the GRAPHICS and GENERAL types are exactly the listed ones |
| Catalog.Difficulty | src/main/java/dev/hiba550/smartprofiler/data/optimization/OptimizationEngine.java:841-858 | difficulty lies in 1..5, with exactly the listed types at 1 and at 5 |
| Catalog.Impact | src/main/java/dev/hiba550/smartprofiler/data/optimization/OptimizationEngine.java:863-879 | the impact is the table value, one higher (capped at 5) for a CRITICAL issue; always 2..5 |
| Catalog.CriticalRaisesImpact | src/main/java/dev/hiba550/smartprofiler/data/optimization/OptimizationEngine.java:863-879 | a CRITICAL issue raises the impact by one unless it is already 5 |
| Catalog.EstimatedMinutes | src/main/java/dev/hiba550/smartprofiler/data/optimization/OptimizationEngine.java:884-901 | every estimate is one of 1, 2, 5, 10, 15, 30 and 45 minutes |
| Catalog.AllocationRangeInvertedAsWritten | src/main/java/dev/hiba550/smartprofiler/data/optimization/OptimizationEngine.java:473-478 | as written, from 14 GB the advised range "%d-6GB" runs backwards; 16 GB gives "8-6GB" |
| Catalog.AllocationLowGB | src/main/java/dev/hiba550/smartprofiler/data/optimization/OptimizationEngine.java:660 | the corrected low end never exceeds 6 GB or half the memory, and agrees with the written one up to 13 GB |
| Catalog.AllocationRangeProper | src/main/java/dev/hiba550/smartprofiler/data/optimization/OptimizationEngine.java:473-478 | the corrected advice is always a proper range |
| Catalog.DescriptionFor | src/main/java/dev/hiba550/smartprofiler/data/optimization/OptimizationEngine.java:465-508 | only the three parameterised types get parameterised texts, carrying the frame's render distance or heap use |
| Catalog.Steps | src/main/java/dev/hiba550/smartprofiler/data/optimization/OptimizationEngine.java:513-576 | the six types with their own instructions have 5, 6 or 8 steps; all others get the 3 generic steps |
| Catalog.Warnings | src/main/java/dev/hiba550/smartprofiler/data/optimization/OptimizationEngine.java:581-609 | three warnings for exactly the four risky types, none otherwise |
| Catalog.Requirements | src/main/java/dev/hiba550/smartprofiler/data/optimization/OptimizationEngine.java:614-642 | three requirements for exactly four types, none otherwise |
| Catalog.RecommendedDistance | src/main/java/dev/hiba550/smartprofiler/data/optimization/OptimizationEngine.java:653 | the recommended distance lies in 8..12 and is below the current one when that exceeds 8 |
| Catalog.RelatedSettings | src/main/java/dev/hiba550/smartprofiler/data/optimization/OptimizationEngine.java:647-672 | the exact keys and values for the three types that have settings; empty for every other type |
| Catalog.AutoImplementableAreLowRisk | src/main/java/dev/hiba550/smartprofiler/data/optimization/OptimizationEngine.java:677-687 | an auto-implementable type carries no warning or requirement and takes at most ten minutes |
| Catalog.AutoRenderDistance | src/main/java/dev/hiba550/smartprofiler/data/optimization/OptimizationEngine.java:695-702 | the automatic change lowers the distance by two, but never below 8 |
| Effectiveness.New | src/main/java/dev/hiba550/smartprofiler/data/optimization/SuggestionEffectiveness.java:29-35 | a fresh log is valid, with score 3.0, confidence 0 and average 3.0 |
| Effectiveness.AverageIsMean | src/main/java/dev/hiba550/smartprofiler/data/optimization/SuggestionEffectiveness.java:148-155 | the average of a valid, non-empty log is the mean rating, in 1..5 |
| Effectiveness.WeightedSumBounds | src/main/java/dev/hiba550/smartprofiler/data/optimization/SuggestionEffectiveness.java:67-89 | the age-weighted sum lies between the lowest and highest rating times the total weight |
| Effectiveness.ScoreBetweenRatings | src/main/java/dev/hiba550/smartprofiler/data/optimization/SuggestionEffectiveness.java:67-89 | the weighted score never leaves the range the ratings span |
| Effectiveness.SameAgeScoreIsMean | src/main/java/dev/hiba550/smartprofiler/data/optimization/SuggestionEffectiveness.java:67-89 | ratings of equal age give a score equal to their plain mean |
| Effectiveness.RatingVariance | src/main/java/dev/hiba550/smartprofiler/data/optimization/SuggestionEffectiveness.java:115-129 | 0 below two ratings; otherwise the variance times the rating count is the sum of squared deviations from the average, so the divisor is n; never negative |
| Effectiveness.OneAndFiveVariance | src/main/java/dev/hiba550/smartprofiler/data/optimization/SuggestionEffectiveness.java:115-129 | ratings 1 and 5 have variance 4, not the n - 1 value 8 |
| Effectiveness.ConfidenceBounds | src/main/java/dev/hiba550/smartprofiler/data/optimization/SuggestionEffectiveness.java:94-110 | the confidence lies in (0, 1] once a rating exists, and is 0.1 after exactly one |
| Effectiveness.AddRating | src/main/java/dev/hiba550/smartprofiler/data/optimization/SuggestionEffectiveness.java:43-61 | a rating outside 1..5 is rejected; otherwise it is appended, the counters grow, the score becomes the time-weighted score of the extended log seeded with the previous score, and the log stays valid with score in 1..5 and confidence in (0, 1] |
| Effectiveness.FewRatingsAlwaysRecommended | src/main/java/dev/hiba550/smartprofiler/data/optimization/SuggestionEffectiveness.java:188-196 | with fewer than two ratings the type is always recommended |
| Effectiveness.RecentRatings | src/main/java/dev/hiba550/smartprofiler/data/optimization/SuggestionEffectiveness.java:167-174 | the newest min(count, n) ratings, a suffix of the log; an error for a negative count |
| Effectiveness.Trend | src/main/java/dev/hiba550/smartprofiler/data/optimization/SuggestionEffectiveness.java:201-218 | UNKNOWN exactly below three ratings; otherwise the recent half is what getRecentRatings(min(5, n/2)) returns, the older half is the rest, both are non-empty, and the result is IMPROVING iff the difference of their means exceeds 0.5, DECLINING iff it is below -0.5, STABLE otherwise |
| Effectiveness.ConstantLogIsStable | src/main/java/dev/hiba550/smartprofiler/data/optimization/SuggestionEffectiveness.java:201-218 | three or more equal ratings are STABLE |
| Effectiveness.SeparatedHalvesImprove | src/main/java/dev/hiba550/smartprofiler/data/optimization/SuggestionEffectiveness.java:201-218 | recent ratings all at least lo and older ones all at most hi, with lo - hi > 0.5, give IMPROVING |
| Effectiveness.SeparatedHalvesDecline | src/main/java/dev/hiba550/smartprofiler/data/optimization/SuggestionEffectiveness.java:201-218 | recent ratings all at most hi and older ones all at least lo, with lo - hi > 0.5, give DECLINING |
| Effectiveness.AddThen | src/main/java/dev/hiba550/smartprofiler/data/optimization/SuggestionEffectiveness.java:43-61 | an accepted rating is appended and keeps the log valid; a rejected one changes nothing |
| Effectiveness.ThreeFivesAreEffective | src/main/java/dev/hiba550/smartprofiler/data/optimization/SuggestionEffectiveness.java:180-182 | three ratings of 5 on a fresh log make the type effective |
| Effectiveness.FivesThenOnesDecline | src/main/java/dev/hiba550/smartprofiler/data/optimization/SuggestionEffectiveness.java:201-218 | three 5s followed by seven 1s read as DECLINING |
| Effectiveness.WorkedScenario | src/main/java/dev/hiba550/smartprofiler/data/optimization/SuggestionEffectiveness.java:43-218 | a type rated effective turns DECLINING after seven ratings of 1 |
| Hardware.Score | src/main/java/dev/hiba550/smartprofiler/data/optimization/HardwareProfile.java:47-80 | the score is the sum of the CPU, memory, GPU and architecture points, in 10..100 |
| Hardware.Tier | src/main/java/dev/hiba550/smartprofiler/data/optimization/HardwareProfile.java:83-86 | HIGH_END iff score >= 75, MID_RANGE iff 50..74, LOW_END iff 25..49, POTATO below 25 |
| Hardware.TierMonotone | src/main/java/dev/hiba550/smartprofiler/data/optimization/HardwareProfile.java:46-87 | more cores or more memory never lower the tier |
| Hardware.RecommendedRenderDistance | src/main/java/dev/hiba550/smartprofiler/data/optimization/HardwareProfile.java:133-140 | 16 chunks exactly for HIGH_END, 6 exactly for POTATO, one of 6, 8, 12 and 16 in general |
| Hardware.RenderDistanceFollowsTier | src/main/java/dev/hiba550/smartprofiler/data/optimization/HardwareProfile.java:133-140 | a better tier never gets a shorter distance |
| Hardware.RecommendedMemoryAllocationGB | src/main/java/dev/hiba550/smartprofiler/data/optimization/HardwareProfile.java:145-152 | the tier cap or half the memory, whichever is smaller; never more than half the memory |
| Hardware.Key | src/main/java/dev/hiba550/smartprofiler/data/optimization/HardwareProfile.java:196-198 | the hash key holds the cores, memory, GPU type, OS name and architecture |
| Hardware.EqualityIsKeyEquality | src/main/java/dev/hiba550/smartprofiler/data/optimization/HardwareProfile.java:184-198 | equality is equality of keys; CPU name, GPU name and Java version never matter |
| Hardware.EqualProfilesMayDifferInTier | src/main/java/dev/hiba550/smartprofiler/data/optimization/HardwareProfile.java:46-87 | two equal profiles can land in different tiers, because the GPU name counts for the tier only |
| Playstyle.New | src/main/java/dev/hiba550/smartprofiler/data/optimization/PlaystyleProfile.java:35-50 | a new profile is valid, with no sessions and all preference scores 0 |
| Playstyle.Intensity | src/main/java/dev/hiba550/smartprofiler/data/optimization/PlaystyleProfile.java:71-91 | an activity intensity is at most 1, in [0, 1] for a real session, and 1 iff the count reaches saturation |
| Playstyle.EmaBetween | src/main/java/dev/hiba550/smartprofiler/data/optimization/PlaystyleProfile.java:96-101 | the average moves a tenth of the way towards the observation and stays between the two |
| Playstyle.UpdateMetrics | src/main/java/dev/hiba550/smartprofiler/data/optimization/PlaystyleProfile.java:71-91 | metrics stay in [0, 1]; multiplayer never lowers the social metric and single-player never raises it |
| Playstyle.LearnFromBehavior | src/main/java/dev/hiba550/smartprofiler/data/optimization/PlaystyleProfile.java:106-121 | above 60 fps on fancy graphics QUALITY, else below 30 fps PERFORMANCE, else unchanged; the render distance is adopted |
| Playstyle.RecordSession | src/main/java/dev/hiba550/smartprofiler/data/optimization/PlaystyleProfile.java:55-66 | one more session, its minutes added, preferences kept, and validity preserved |
| Playstyle.ResponseCategory | src/main/java/dev/hiba550/smartprofiler/data/optimization/PlaystyleProfile.java:240-244 | every suggestion type is filed under GENERAL |
| Playstyle.RecordSuggestionResponse | src/main/java/dev/hiba550/smartprofiler/data/optimization/PlaystyleProfile.java:126-152 | only the GENERAL category and the type's own score move; the type's score rises iff the response applied it |
| Playstyle.HelpfulThenUnhelpfulCancel | src/main/java/dev/hiba550/smartprofiler/data/optimization/PlaystyleProfile.java:126-152 | a helpful response followed by an unhelpful one leaves every score where it was |
| Playstyle.OnlyGeneralCategoryMoves | src/main/java/dev/hiba550/smartprofiler/data/optimization/PlaystyleProfile.java:126-152 | after any responses, every category except GENERAL keeps its score |
| Playstyle.PrefersPerformanceUnlessQuality | src/main/java/dev/hiba550/smartprofiler/data/optimization/PlaystyleProfile.java:178-181 | the profile prefers performance iff QUALITY was not learned |
| Playstyle.RecommendedSuggestionTypes | src/main/java/dev/hiba550/smartprofiler/data/optimization/PlaystyleProfile.java:186-214 | exactly the two types of each strong activity are recommended |
| Playstyle.Classify | src/main/java/dev/hiba550/smartprofiler/data/optimization/PlaystyleProfile.java:219-238 | one iff per type in the order the code tests them: BUILDER iff building > 0.7; EXPLORER, SURVIVOR, ENGINEER and SOCIAL iff their activity passes its threshold and every earlier test fails; CREATIVE and ADVENTURER iff no single activity dominates and their pair exceeds 0.5; CASUAL otherwise |
| Playstyle.ClassificationMatchesRecommendations | src/main/java/dev/hiba550/smartprofiler/data/optimization/PlaystyleProfile.java:186-238 | each dominant type is offered its activity's suggestions; CASUAL without redstone gets none |
| Playstyle.NewProfileIsCasual | src/main/java/dev/hiba550/smartprofiler/data/optimization/PlaystyleProfile.java:42-50 | a new profile is CASUAL, has no recommendations and prefers performance |
| Engine.Initialize | src/main/java/dev/hiba550/smartprofiler/data/optimization/OptimizationEngine.java:71-93 | nothing queued, rated or on cooldown; the built-in mod list holds no shader mod |
| Engine.Shutdown | src/main/java/dev/hiba550/smartprofiler/data/optimization/OptimizationEngine.java:948-955 | queue, cooldowns, ratings, preferences and mods are cleared; counters and profiles stay |
| Engine.InitialModsHaveNoShaderMod | src/main/java/dev/hiba550/smartprofiler/data/optimization/OptimizationEngine.java:905-918 | neither built-in mod name marks a shader mod |
| Engine.CooldownWindow | src/main/java/dev/hiba550/smartprofiler/data/optimization/OptimizationEngine.java:773-785 | only tabled types can be on cooldown; a type issued at t is blocked exactly until t plus its cooldown |
| Engine.Survivors | src/main/java/dev/hiba550/smartprofiler/data/optimization/OptimizationEngine.java:247-286 | exactly the candidates that are applicable, compatible and not on cooldown, without repeats |
| Engine.PreferenceFactor | src/main/java/dev/hiba550/smartprofiler/data/optimization/OptimizationEngine.java:302-305 | the 1.2 bonus applies iff the type is preferred on this hardware |
| Engine.ScoreBounds | src/main/java/dev/hiba550/smartprofiler/data/optimization/OptimizationEngine.java:291-312 | a score lies between 0.7 and 1.8 times the matrix score times the severity multiplier |
| Engine.HistoryFactorBounds | src/main/java/dev/hiba550/smartprofiler/data/optimization/OptimizationEngine.java:296-298 | the history factor lies in 0.7..1.5 for well-formed logs |
| Engine.DetermineSuggestionType | src/main/java/dev/hiba550/smartprofiler/data/optimization/OptimizationEngine.java:143-242 | GENERAL_PERFORMANCE_TIPS for untabled issues; otherwise a surviving candidate of maximal score, the first among equals; none iff nothing survives |
| Engine.ShadersNeedAShaderMod | src/main/java/dev/hiba550/smartprofiler/data/optimization/OptimizationEngine.java:260-272 | DISABLE_SHADERS is never chosen without a shader mod, and tabled issues never get the generic tips |
| Engine.CreateSuggestion | src/main/java/dev/hiba550/smartprofiler/data/optimization/OptimizationEngine.java:379-421 | the suggestion has the chosen type and issue, priority 3..10, difficulty 1..5, impact 2..5, and low-risk auto-implementation |
| Engine.GenerateSuggestion | src/main/java/dev/hiba550/smartprofiler/data/optimization/OptimizationEngine.java:103-138 | nothing when disabled, without a type or on cooldown; otherwise the chosen type's suggestion, its cooldown started and the counter advanced |
| Engine.GenerationFollowsDecision | src/main/java/dev/hiba550/smartprofiler/data/optimization/OptimizationEngine.java:103-138 | a suggestion is generated iff a type is found off cooldown; untabled issues always get the tips |
| Engine.GenerationStartsCooldown | src/main/java/dev/hiba550/smartprofiler/data/optimization/OptimizationEngine.java:120-124 | generating starts the type's cooldown iff the type has one |
| Engine.NoRepeatWithinCooldown | src/main/java/dev/hiba550/smartprofiler/data/optimization/OptimizationEngine.java:773-785 | within its cooldown, the same type is never generated again |
| Engine.QueueSuggestion | src/main/java/dev/hiba550/smartprofiler/data/optimization/OptimizationEngine.java:722-727 | a null or already queued suggestion is ignored; otherwise it joins the end; the queue stays free of duplicates |
| Engine.QueueIdempotent | src/main/java/dev/hiba550/smartprofiler/data/optimization/OptimizationEngine.java:722-727 | queuing twice is queuing once |
| Engine.NextSuggestion | src/main/java/dev/hiba550/smartprofiler/data/optimization/OptimizationEngine.java:732-734 | the oldest suggestion is removed and returned; none for an empty queue |
| Engine.FirstInFirstOut | src/main/java/dev/hiba550/smartprofiler/data/optimization/OptimizationEngine.java:722-734 | suggestions come out in the order they were queued |
| Engine.ClearSuggestions | src/main/java/dev/hiba550/smartprofiler/data/optimization/OptimizationEngine.java:746-748 | the queue is emptied and nothing else changes |
| Engine.RecordSuggestionEffectiveness | src/main/java/dev/hiba550/smartprofiler/data/optimization/OptimizationEngine.java:753-768 | a log is created if missing; a bad rating is rejected; a good one is appended, and 4 or 5 marks the type preferred; nothing else changes |
| Engine.RatingTouchesOnlyItsType | src/main/java/dev/hiba550/smartprofiler/data/optimization/OptimizationEngine.java:753-768 | another type's log and preference are untouched |
| Engine.RatingKeepsTrackersValid | src/main/java/dev/hiba550/smartprofiler/data/optimization/OptimizationEngine.java:753-768 | recording a rating keeps every log well formed |
| Engine.GoodRatingIsRemembered | src/main/java/dev/hiba550/smartprofiler/data/optimization/OptimizationEngine.java:760-764 | a rating of 4 or 5 makes the type preferred on this hardware, so its score carries the 1.2 preference factor |
| Engine.MarkPreferred | src/main/java/dev/hiba550/smartprofiler/data/optimization/OptimizationEngine.java:760-764 | the type becomes preferred on the current hardware; every other type keeps its preference and nothing else changes |
| Engine.RatedLogValid | src/main/java/dev/hiba550/smartprofiler/data/optimization/OptimizationEngine.java:753-768 | after a rating, the rated type has a log and it is well formed |
| Engine.AutoImplement | src/main/java/dev/hiba550/smartprofiler/data/optimization/OptimizationEngine.java:692-717 | runs iff allowed and an action exists; running marks it applied and counts one application |
| Engine.GeneratedAutoImplementation | src/main/java/dev/hiba550/smartprofiler/data/optimization/OptimizationEngine.java:677-717 | a generated suggestion applies itself iff its type is one of the five settings-only types |
| Engine.GetStatistics | src/main/java/dev/hiba550/smartprofiler/data/optimization/OptimizationEngine.java:934-943 | the statistics report the engine's counters, queue length, log count and profiles |
| Engine.FreshEngineNotPerformingWell | src/main/java/dev/hiba550/smartprofiler/data/optimization/OptimizationStatistics.java:32-34 | a fresh engine, or one with ten queued suggestions, is not performing well |
| Sequences.SortDescIsDescending | src/main/java/dev/hiba550/smartprofiler/data/optimization/OptimizationEngine.java:235-241 | the candidate sort yields descending scores |
| Sequences.SortDescHead | src/main/java/dev/hiba550/smartprofiler/data/optimization/OptimizationEngine.java:235-241 | the head of the stable sort is the first candidate of maximal score |
| OverlayModes.Next | src/main/java/dev/hiba550/smartprofiler/client/overlay/OverlayMode.java:60-64 | the next mode is at ordinal + 1, wrapping round |
| OverlayModes.Previous | src/main/java/dev/hiba550/smartprofiler/client/overlay/OverlayMode.java:69-73 | the previous mode is at ordinal - 1, wrapping round |
| OverlayModes.CycleLaws | src/main/java/dev/hiba550/smartprofiler/client/overlay/OverlayMode.java:60-73 | next and previous are inverse, and four steps are a full cycle |
| OverlayModes.NextTable | src/main/java/dev/hiba550/smartprofiler/client/overlay/OverlayMode.java:21-39 | the successor of each of the four modes, GRAPH_ONLY wrapping to MINIMAL |
| OverlayModes.PreviousTable | src/main/java/dev/hiba550/smartprofiler/client/overlay/OverlayMode.java:21-39 | the predecessor of each of the four modes, MINIMAL wrapping to GRAPH_ONLY |
| OverlayPositions.Next | src/main/java/dev/hiba550/smartprofiler/client/overlay/OverlayPosition.java:63-67 | the next position is at ordinal + 1, wrapping round |
| OverlayPositions.Previous | src/main/java/dev/hiba550/smartprofiler/client/overlay/OverlayPosition.java:72-76 | the previous position is at ordinal - 1, wrapping round |
| OverlayPositions.CycleLaws | src/main/java/dev/hiba550/smartprofiler/client/overlay/OverlayPosition.java:63-76 | next and previous are inverse, and five steps are a full cycle |
| OverlayPositions.NextTable | src/main/java/dev/hiba550/smartprofiler/client/overlay/OverlayPosition.java:63-67 | the successor of each of the five positions, CENTER wrapping to TOP_LEFT |
| OverlayPositions.PreviousTable | src/main/java/dev/hiba550/smartprofiler/client/overlay/OverlayPosition.java:72-76 | the predecessor of each of the five positions, TOP_LEFT wrapping to CENTER |
| OverlayPositions.SidesAreConsistent | src/main/java/dev/hiba550/smartprofiler/client/overlay/OverlayPosition.java:81-104 | no position is on opposite sides; each corner is on one horizontal and one vertical side; CENTER on none |
| Colors.ChannelsOfArgb | src/main/java/dev/hiba550/smartprofiler/util/ColorUtils.java:23-30 | packing four bytes and reading them back with shifts and masks gives the bytes |
| Colors.ArgbOfChannels | src/main/java/dev/hiba550/smartprofiler/util/ColorUtils.java:44-59 | unpacking any colour and packing its four bytes gives the colour |
| Colors.Clamp01 | src/main/java/dev/hiba550/smartprofiler/util/ColorUtils.java:28 | the clamped factor lies in [0, 1] and is the factor itself when that already does |
| Colors.MultiplyAlpha | src/main/java/dev/hiba550/smartprofiler/util/ColorUtils.java:22-31 | red, green and blue are kept; the alpha never grows, is kept for a factor >= 1 and is 0 for a factor <= 0 |
| Colors.ScaledAlpha | src/main/java/dev/hiba550/smartprofiler/util/ColorUtils.java:28 | a scaled alpha byte never exceeds the original, is kept at k = 1 and is 0 at k = 0 |
| Colors.ScaledAlphaIsFloor | src/main/java/dev/hiba550/smartprofiler/util/ColorUtils.java:28 | the scaled alpha is the whole part of alpha times k |
| Colors.LerpChannel | src/main/java/dev/hiba550/smartprofiler/util/ColorUtils.java:54-57 | an interpolated channel lies between the two source channels and equals them at the ends |
| Colors.LerpColor | src/main/java/dev/hiba550/smartprofiler/util/ColorUtils.java:41-60 | every channel lies between the two colours' channels; a factor <= 0 gives the first colour and >= 1 the second |
| Colors.AnchorChannels | src/main/java/dev/hiba550/smartprofiler/util/ColorUtils.java:118-121 | the three gradient anchors are opaque with blue 0x40 and the stated red and green bytes |
| Colors.PerformanceColor | src/main/java/dev/hiba550/smartprofiler/util/ColorUtils.java:111-123 | green at 0, yellow at 0.5, red at 1; always opaque with blue 0x40; full green up to the midpoint and full red from it |
| MathUtils.Normalize | src/main/java/dev/hiba550/smartprofiler/util/MathUtils.java:55-58 | 0 for an empty range; otherwise clamped into [0, 1], and inside the range exactly the position's fraction |
| MathUtils.NormalizeMonotone | src/main/java/dev/hiba550/smartprofiler/util/MathUtils.java:55-58 | normalising preserves the order of values |
| MathUtils.NormalizeInverts | src/main/java/dev/hiba550/smartprofiler/util/MathUtils.java:55-58 | normalising the point a fraction t along the range gives back t |
| MathUtils.SortAsc | src/main/java/dev/hiba550/smartprofiler/util/MathUtils.java:40-41 | the sorted copy is an ascending permutation of the input |
| MathUtils.Percentile95 | src/main/java/dev/hiba550/smartprofiler/util/MathUtils.java:37-45 | 0 for no values; otherwise one of the inputs, and the order statistic of rank 0.95 n truncated |
| MathUtils.PercentileIndexIsTruncatedProduct | src/main/java/dev/hiba550/smartprofiler/util/MathUtils.java:43-44 | the clamp to the last index never binds |
| MathUtils.AtLeastNinetyFivePercentBelow | src/main/java/dev/hiba550/smartprofiler/util/MathUtils.java:37-45 | at least 95 % of the values are at most the percentile |
| MathUtils.SmoothedAverage | src/main/java/dev/hiba550/smartprofiler/util/MathUtils.java:20-28 | 0 for no values; the first value for one value or factor 0; the last for factor 1; between the least and the greatest value for a factor in [0, 1] |
| MathUtils.SmoothedWithin | src/main/java/dev/hiba550/smartprofiler/util/MathUtils.java:20-28 | values in [lo, hi] and a factor in [0, 1] keep the average in [lo, hi] |
| SystemInfo.ParseInt | src/main/java/dev/hiba550/smartprofiler/util/SystemInfoCollector.java:127-130 | a parse fails on empty text, a bad first character or a later non-digit; a minus sign gives a value <= 0, otherwise >= 0 |
| SystemInfo.ParseFormatsBack | src/main/java/dev/hiba550/smartprofiler/util/SystemInfoCollector.java:127-130 | parsing the decimal text of any 32-bit number gives back that number |
| SystemInfo.ParseMajorVersion | src/main/java/dev/hiba550/smartprofiler/util/SystemInfoCollector.java:123-135 | a missing property or one without a dot yields 8; the result is a 32-bit number |
| SystemInfo.NewFormatVersion | src/main/java/dev/hiba550/smartprofiler/util/SystemInfoCollector.java:129-130 | "n.rest" with n other than 1 yields n |
| SystemInfo.OldFormatVersion | src/main/java/dev/hiba550/smartprofiler/util/SystemInfoCollector.java:125-127 | "1.n.rest" yields n |
| SystemInfo.Java8Example | src/main/java/dev/hiba550/smartprofiler/util/SystemInfoCollector.java:125-127 | "1.8.0_381" is Java 8 |
| SystemInfo.Java17Example | src/main/java/dev/hiba550/smartprofiler/util/SystemInfoCollector.java:129-130 | "17.0.1" is Java 17 |
| SystemInfo.Java21Example | src/main/java/dev/hiba550/smartprofiler/util/SystemInfoCollector.java:129-130 | "21.0.2" is Java 21 |
| SystemInfo.OldFormatWithoutSecondDot | src/main/java/dev/hiba550/smartprofiler/util/SystemInfoCollector.java:125-133 | "1." without a second dot falls back to 8 |
| SystemInfo.NonNumericFieldIsEight | src/main/java/dev/hiba550/smartprofiler/util/SystemInfoCollector.java:130-133 | a field that is not a number falls back to 8 |
| SystemInfo.DetectJavaInfo | src/main/java/dev/hiba550/smartprofiler/util/SystemInfoCollector.java:108-121 | the parsed major version, recommended iff it is at least 21, and the properties passed through |
| SystemInfo.RecommendationByVersion | src/main/java/dev/hiba550/smartprofiler/util/SystemInfoCollector.java:108-121 | Java 8 in the old format is not recommended; in the new format Java 21 and later is, earlier is not |
| SystemInfo.FallbackExamples | src/main/java/dev/hiba550/smartprofiler/util/SystemInfoCollector.java:123-135 | "21", "1.0" and "abc.1" all fall back to 8 |

## Left out

- Floating-point rounding: `float` and `double` are modelled as exact reals.
  NaN and infinity appear only where the code divides by zero. Those cases
  become `None` or are stated by case (the zero-mean instability test).
  `(float)` narrowing casts are not modelled.
- `Math.sqrt` and `Math.exp`:
  - The instability rule compares the variance with 0.09 times the squared
    mean instead of taking a square root.
  - The age decay of the effectiveness score is a strictly positive weight
    function passed as a parameter.
- The clock, `System.nanoTime` timings, logging and the database are not
  modelled. The analyser's average analysis time comes from a statistics
  helper that is not part of this model, so it is a parameter.
- Concurrency: the concurrent maps, atomics and copy-on-write list are
  sequential values.
- Exception isolation: one `try` per analysis or generation. Only the
  modelled error paths are kept:
  - a rejected rating;
  - a throwing listener or action;
  - a failed parse;
  - a missing builder field.
- The performance frame class and the collector that fills it are not part
  of this model. A frame is a record of the fields the core reads.
- Text: the wording of titles, descriptions, steps, warnings and summaries
  is not modelled, including the `getSummary`/`toString` formatting. Lists
  keep their lengths, and descriptions keep their interpolated numbers.
- SystemInfoCollector GPU and system-performance detection: these run
  external commands and read the operating system.
- SystemInfo.ParseInt: `Integer.parseInt` also accepts non-ASCII Unicode
  digits. The model accepts ASCII digits only.
- `MathUtils.calculate95thPercentile` clones its input before sorting. Values
  are immutable here, so the input stays unmodified by construction.
- ColorUtils.fromHSV and applyPulse: sector arithmetic on floats and a sine
  pulse. Clamping a NaN factor is not modelled either.
- Config change types: the listener protocol is generic in the change type,
  and no enum of change kinds is modelled.
- Analyzer.Detected: the network rule compares against the corrected
  bandwidth threshold (`Config.BandwidthThreshold`), not the 32-bit product
  the code computes, which wraps from 2048 MB on. The written threshold is
  `Config.BandwidthThresholdAsWritten`, under Findings.
- Catalog.DescriptionFor: the low end of the memory-allocation advice is the
  corrected `Catalog.AllocationLowGB`, capped at 6, not min(8, memory / 2) as
  written. The two agree up to 13 GB of memory. The written value is
  `Catalog.AllocationLowGBAsWritten`, under Findings.
- Engine.CreateSuggestion: builds its description with
  `Catalog.DescriptionFor`, so it carries the same corrected low end.
- Strings.Lower: folds only the ASCII letters A-Z. Java's `toLowerCase`
  follows the default locale and all of Unicode. The GPU names and mod names
  it is applied to are matched against ASCII patterns.
- Playstyle.RecordSession: the session count is a Java `int` (an
  `AtomicInteger`) but is modelled as an unbounded integer. It would wrap
  only after 2^31 sessions.
- Playstyle.RecordSuggestionResponse: the category and type preference
  scores are Java `Integer`s but are modelled as unbounded integers. Each
  response moves a score by at most 3.
- Effectiveness.AddRating: the application count is a Java `int` (an
  `AtomicInteger`) but is modelled as an unbounded integer. It would wrap
  only after 2^31 ratings.
- The `long` counters are unbounded integers. These are the tracker's
  occurrence count, the engine's generated and applied counts, the play time
  and the effectiveness points.
- The engine being used before `initialize`: the model always holds a
  hardware and a playstyle profile. The source would throw on the missing
  profile.
- The analyser's call into the engine is modelled in two parts:
  - `Analyzer.SuggestionRequests` picks the issues;
  - `Engine.GenerateSuggestion` and `Engine.QueueSuggestion` act on each.
  One combined state for both components is not built.
- Colors.MultiplyAlpha: states the new alpha through `Colors.ScaledAlpha`. The
  fact that this is the floor of alpha times the factor is the separate lemma
  `Colors.ScaledAlphaIsFloor`.

## Findings

| source | as written | input that shows it | evidently intended | confidence | as-written member | corrected member |
|---|---|---|---|---|---|---|
| src/main/java/dev/hiba550/smartprofiler/config/ProfilerConfig.java:565-567 | `mb * 1024 * 1024` is computed in 32-bit `int` and only then widened to `long`, so 2048 MB and above wrap round | a threshold of 2048 MB gives -2147483648 bytes; every frame's non-negative bandwidth exceeds it | the byte count without overflow, `(long) mb * 1024 * 1024` | not executed | Config.BandwidthOverflowAt2048 | Config.BandwidthThreshold |
| src/main/java/dev/hiba550/smartprofiler/data/optimization/OptimizationEngine.java:473-478 | the memory advice "allocate %d-6GB" takes its low end as min(8, memory / 2), so it can pass the fixed high end of 6 | 16 GB of memory gives "8-6GB"; every machine from 14 GB gets a backward range | a low end capped at the range's high end, as the related setting at line 660 caps it at 6 | not executed | Catalog.AllocationRangeInvertedAsWritten | Catalog.AllocationRangeProper |
