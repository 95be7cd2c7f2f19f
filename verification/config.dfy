/** The profiler's settings as a plain record, with the repair rules applied on
    load and save, the factory defaults, and the unit-converting getters. */
module Config {
  import opened Basics
  import Modes = OverlayModes
  import Positions = OverlayPositions

  datatype ProfilerConfig = ProfilerConfig(
    // general
    enabled: bool,
    realtimeMonitoringEnabled: bool,
    bottleneckAnalysisEnabled: bool,
    databaseEnabled: bool,
    collectionFrequency: Int32,
    // overlay
    overlayEnabled: bool,
    defaultOverlayMode: Modes.OverlayMode,
    defaultOverlayPosition: Positions.OverlayPosition,
    overlayOpacity: Int32,
    overlayUpdateRate: Int32,
    showGraphs: bool,
    showWarnings: bool,
    enableAnimations: bool,
    // thresholds
    lowFpsThreshold: Int32,
    criticalFpsThreshold: Int32,
    highMemoryThreshold: Int32,
    criticalMemoryThreshold: Int32,
    excessiveChunksThreshold: Int32,
    excessiveEntitiesThreshold: Int32,
    renderTimeThreshold: Int32,
    drawCallThreshold: Int32,
    networkLatencyThreshold: Int32,
    packetLossThreshold: Int32,
    networkBandwidthThreshold: Int32,
    // analysis
    serverMonitoringEnabled: bool,
    memoryLeakDetectionEnabled: bool,
    gpuBottleneckDetectionEnabled: bool,
    optimizationSuggestionsEnabled: bool,
    analysisWindowSize: Int32,
    trendSensitivity: Int32,
    // notifications
    chatNotificationsEnabled: bool,
    soundNotificationsEnabled: bool,
    toastNotificationsEnabled: bool,
    notificationCooldown: Int32,
    onlyCriticalNotifications: bool,
    // storage
    dataPersistenceEnabled: bool,
    dataRetentionDays: Int32,
    maxDatabaseSizeMB: Int32,
    autoCleanupEnabled: bool,
    csvExportEnabled: bool,
    // advanced
    debugLoggingEnabled: bool,
    experimentalFeaturesEnabled: bool,
    analysisThreadCount: Int32,
    jfrIntegrationEnabled: bool,
    nativeMemoryTrackingEnabled: bool,
    dataBufferSize: Int32)

  /** The field initialisers of a freshly constructed configuration. */
  const Defaults: ProfilerConfig := ProfilerConfig(
    true, true, true, true, 20,
    true, Modes.Compact, Positions.TopLeft, 90, 10, true, true, true,
    30, 15, 80, 95, 1000, 500, 50, 2000, 150, 5, 10,
    true, true, true, true, 60, 5,
    true, true, true, 30, false,
    true, 7, 50, true, false,
    false, false, 2, false, false, 1000)

  /** The orderings and bounds the repair pass establishes, for a machine with
      `processors` available processors. */
  predicate Repaired(c: ProfilerConfig, processors: int)
  {
    && (c.lowFpsThreshold > 5 ==> c.criticalFpsThreshold < c.lowFpsThreshold)
    && (c.highMemoryThreshold <= 98 ==> c.criticalMemoryThreshold > c.highMemoryThreshold)
    && c.collectionFrequency <= 60
    && (processors >= 1 ==> c.analysisThreadCount <= processors)
    && c.dataBufferSize >= 100
  }

  /** validateAndFix, with the JVM's processor count passed in. Each rule fires
      only when its field is out of line; 32-bit arithmetic wraps as in Java. */
  function ValidateAndFix(c: ProfilerConfig, processors: Int32): (r: ProfilerConfig)
    ensures Repaired(r, processors)
    // the critical FPS threshold is only touched when it is not below the low one
    ensures c.criticalFpsThreshold < c.lowFpsThreshold ==> r.criticalFpsThreshold == c.criticalFpsThreshold
    ensures c.criticalFpsThreshold >= c.lowFpsThreshold && c.lowFpsThreshold > IntMin + 5 ==>
              r.criticalFpsThreshold == Max(5, c.lowFpsThreshold - 5)
    ensures c.criticalMemoryThreshold > c.highMemoryThreshold ==> r.criticalMemoryThreshold == c.criticalMemoryThreshold
    ensures c.criticalMemoryThreshold <= c.highMemoryThreshold && c.highMemoryThreshold < IntMax - 5 ==>
              r.criticalMemoryThreshold == Min(99, c.highMemoryThreshold + 5)
    ensures r.collectionFrequency == Min(c.collectionFrequency, 60)
    ensures r.dataBufferSize == Max(c.dataBufferSize, 100)
    ensures c.analysisThreadCount <= processors ==> r.analysisThreadCount == c.analysisThreadCount
    // every other setting is left as it was
    ensures Others(r) == Others(c)
  {
    var fps, mem, threads := RepairedCriticalFps(c), RepairedCriticalMemory(c), RepairedThreadCount(c, processors);
    var freq, buffer := RepairedFrequency(c), RepairedBufferSize(c);
    RepairKeepsOthers(c, fps, mem, freq, threads, buffer);
    WithRepaired(c, fps, mem, freq, threads, buffer)
  }

  /** The collection frequency after repair: capped at 60. */
  function RepairedFrequency(c: ProfilerConfig): (v: Int32)
    ensures v == Min(c.collectionFrequency, 60)
  {
    if c.collectionFrequency > 60 then 60 else c.collectionFrequency
  }

  /** The data buffer size after repair: at least 100. */
  function RepairedBufferSize(c: ProfilerConfig): (v: Int32)
    ensures v == Max(c.dataBufferSize, 100)
  {
    if c.dataBufferSize < 100 then 100 else c.dataBufferSize
  }

  /** The critical FPS threshold after repair: five below the low one (at least
      5) when it is not already below it. */
  function RepairedCriticalFps(c: ProfilerConfig): (v: Int32)
    ensures c.lowFpsThreshold > 5 ==> v < c.lowFpsThreshold
    ensures c.criticalFpsThreshold < c.lowFpsThreshold ==> v == c.criticalFpsThreshold
    ensures c.criticalFpsThreshold >= c.lowFpsThreshold && c.lowFpsThreshold > IntMin + 5 ==>
              v == Max(5, c.lowFpsThreshold - 5)
  {
    if c.criticalFpsThreshold >= c.lowFpsThreshold
    then Max(5, Wrap32(c.lowFpsThreshold - 5)) else c.criticalFpsThreshold
  }

  /** The critical memory threshold after repair: five above the high one (at
      most 99) when it is not already above it. */
  function RepairedCriticalMemory(c: ProfilerConfig): (v: Int32)
    ensures c.highMemoryThreshold <= 98 ==> v > c.highMemoryThreshold
    ensures c.criticalMemoryThreshold > c.highMemoryThreshold ==> v == c.criticalMemoryThreshold
    ensures c.criticalMemoryThreshold <= c.highMemoryThreshold && c.highMemoryThreshold < IntMax - 5 ==>
              v == Min(99, c.highMemoryThreshold + 5)
  {
    if c.criticalMemoryThreshold <= c.highMemoryThreshold
    then Min(99, Wrap32(c.highMemoryThreshold + 5)) else c.criticalMemoryThreshold
  }

  /** The analysis thread count after repair: half the processors (at least
      one) when it exceeds the processor count. */
  function RepairedThreadCount(c: ProfilerConfig, processors: Int32): (v: Int32)
    ensures processors >= 1 ==> v <= processors
    ensures c.analysisThreadCount <= processors ==> v == c.analysisThreadCount
  {
    if c.analysisThreadCount > processors then Max(1, JavaDiv(processors, 2)) else c.analysisThreadCount
  }

  /** Every setting except the five the repair pass may change (those read 0). */
  function Others(c: ProfilerConfig): ProfilerConfig
  {
    WithRepaired(c, 0, 0, 0, 0, 0)
  }

  lemma RepairKeepsOthers(c: ProfilerConfig, critFps: Int32, critMem: Int32, freq: Int32,
                          threads: Int32, buffer: Int32)
    ensures Others(WithRepaired(c, critFps, critMem, freq, threads, buffer)) == Others(c)
  {
  }

  /** The configuration `c` with the five settings the repair pass may change
      replaced, and every other setting as in `c`. */
  function WithRepaired(c: ProfilerConfig, critFps: Int32, critMem: Int32, freq: Int32,
                        threads: Int32, buffer: Int32): (r: ProfilerConfig)
    ensures r.criticalFpsThreshold == critFps && r.criticalMemoryThreshold == critMem
    ensures r.collectionFrequency == freq && r.analysisThreadCount == threads && r.dataBufferSize == buffer
  {
    c.(criticalFpsThreshold := critFps,
       criticalMemoryThreshold := critMem,
       collectionFrequency := freq,
       analysisThreadCount := threads,
       dataBufferSize := buffer)
  }

  /** Running the repair pass twice on the same machine changes nothing more. */
  lemma ValidateAndFixIdempotent(c: ProfilerConfig, processors: Int32)
    ensures ValidateAndFix(ValidateAndFix(c, processors), processors) == ValidateAndFix(c, processors)
  {
    var r := ValidateAndFix(c, processors);
    var r2 := ValidateAndFix(r, processors);
    assert r2.criticalFpsThreshold == r.criticalFpsThreshold;
    assert r2.criticalMemoryThreshold == r.criticalMemoryThreshold;
    assert r2.analysisThreadCount == r.analysisThreadCount;
    SameOthersAndRepairedFields(r2, r);
  }

  /** Two configurations that agree on the five repaired settings and on all
      the others are the same. */
  lemma SameOthersAndRepairedFields(a: ProfilerConfig, b: ProfilerConfig)
    requires Others(a) == Others(b)
    requires a.criticalFpsThreshold == b.criticalFpsThreshold
    requires a.criticalMemoryThreshold == b.criticalMemoryThreshold
    requires a.collectionFrequency == b.collectionFrequency
    requires a.analysisThreadCount == b.analysisThreadCount
    requires a.dataBufferSize == b.dataBufferSize
    ensures a == b
  {
  }

  /** resetToDefaults: every setting back to its initialiser. The defaults already
      satisfy the repair rules (on any machine with at least two processors,
      because the default thread count is 2), so repairing them is a no-op. */
  function ResetToDefaults(c: ProfilerConfig): (r: ProfilerConfig)
    ensures r.criticalFpsThreshold < r.lowFpsThreshold
    ensures r.criticalMemoryThreshold > r.highMemoryThreshold
    ensures forall p: Int32 :: p >= 2 ==> ValidateAndFix(r, p) == r
  {
    Defaults
  }

  /** getOverlayOpacity: the stored percentage as a fraction. */
  function OverlayOpacity(c: ProfilerConfig): (o: real)
    ensures o * 100.0 == c.overlayOpacity as real
    ensures 10 <= c.overlayOpacity <= 100 ==> 0.1 <= o <= 1.0
  {
    c.overlayOpacity as real / 100.0
  }

  /** getNetworkBandwidthThreshold as written: the megabyte count is multiplied
      by 1024 * 1024 in 32-bit `int` arithmetic and only then widened to `long`. */
  function BandwidthThresholdAsWritten(c: ProfilerConfig): (b: int)
    ensures IntMin <= b <= IntMax
    ensures (b - c.networkBandwidthThreshold * 0x10_0000) % 0x1_0000_0000 == 0
  {
    Wrap32(c.networkBandwidthThreshold * 1024 * 1024)
  }

  /** The evident intent: megabytes converted to bytes without overflow
      (what `(long) mb * 1024 * 1024` computes). */
  function BandwidthThreshold(c: ProfilerConfig): (b: int)
    ensures b / 0x10_0000 == c.networkBandwidthThreshold && b % 0x10_0000 == 0
    ensures c.networkBandwidthThreshold > 0 ==> b > 0
  {
    c.networkBandwidthThreshold * 1024 * 1024
  }

  /** The two agree exactly for thresholds in [-2048, 2047] MB. */
  lemma BandwidthAgreesIff(c: ProfilerConfig)
    ensures BandwidthThresholdAsWritten(c) == BandwidthThreshold(c)
            <==> -2048 <= c.networkBandwidthThreshold < 2048
  {
  }

  /** A 2048 MB threshold becomes -2^31 bytes as written, so every frame's
      bandwidth (never negative) exceeds it, while the intended threshold is 2 GiB. */
  lemma BandwidthOverflowAt2048()
    ensures BandwidthThresholdAsWritten(Defaults.(networkBandwidthThreshold := 2048)) == IntMin
    ensures BandwidthThreshold(Defaults.(networkBandwidthThreshold := 2048)) == 0x8000_0000
  {
  }
}
