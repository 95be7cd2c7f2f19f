/** The engine's fixed tables: which suggestion types answer which issue, how
    long each type cools down, the effectiveness matrix and severity multiplier
    behind the ranking, the priority and the per-type difficulty, impact, time,
    title, advice text, steps, warnings, requirements and related settings. */
module Catalog {
  import opened Basics
  import opened SuggestionTypes
  import opened Issues
  import Sev = Severity
  import Frames
  import HW = Hardware
  import Sg = Suggestion

  // ---------------------------------------------------------------------------
  // Cooldowns

  /** The cooldown table in milliseconds; the other types have no entry. */
  function Cooldown(t: SuggestionType): (c: Option<int>)
    ensures c.Some? ==> c.value >= 3 * 60_000
    ensures c.Some? <==> t in {ReduceRenderDistance, AdjustMemoryAllocation, OptimizeGraphicsSettings,
                               CleanupWorldData, RestartGame, UpdateDrivers, DisableProblematicMods,
                               OptimizeJvmFlags}
  {
    match t
    case ReduceRenderDistance => Some(300_000)
    case AdjustMemoryAllocation => Some(600_000)
    case OptimizeGraphicsSettings => Some(180_000)
    case CleanupWorldData => Some(900_000)
    case RestartGame => Some(1_800_000)
    case UpdateDrivers => Some(86_400_000)
    case DisableProblematicMods => Some(1_800_000)
    case OptimizeJvmFlags => Some(3_600_000)
    case _ => None
  }

  // ---------------------------------------------------------------------------
  // Candidates

  /** The issues the candidate table has a row for. */
  predicate Tabled(issue: PerformanceIssue)
  {
    issue in {LowFps, CriticalFps, HighMemoryUsage, CriticalMemoryUsage, MemoryLeak, RenderLag,
              GpuBottleneck, ExcessiveChunks, ExcessiveEntities, GcPressure, NetworkLag}
  }

  /** The candidate types for an issue, in table order; None for the issues
      without a row, which are answered with GENERAL_PERFORMANCE_TIPS. */
  function Candidates(issue: PerformanceIssue): (c: Option<seq<SuggestionType>>)
    ensures c.Some? <==> Tabled(issue)
    ensures c.Some? ==> 4 <= |c.value| <= 5 && GeneralPerformanceTips !in c.value
    ensures c.Some? ==> forall i, j :: 0 <= i < j < |c.value| ==> c.value[i] != c.value[j]
  {
    match issue
    case LowFps | CriticalFps =>
      Some([ReduceRenderDistance, OptimizeGraphicsSettings, ReduceParticles, DisableSmoothLighting,
            OptimizeEntityRendering])
    case HighMemoryUsage | CriticalMemoryUsage =>
      Some([AdjustMemoryAllocation, CleanupWorldData, ReduceLoadedChunks, RestartGame,
            CloseUnnecessaryApplications])
    case MemoryLeak => Some([RestartGame, DisableProblematicMods, UpdateMods, ReportBug])
    case RenderLag | GpuBottleneck =>
      Some([OptimizeGraphicsSettings, UpdateDrivers, ReduceRenderDistance, DisableShaders,
            OptimizeTexturePack])
    case ExcessiveChunks =>
      Some([ReduceRenderDistance, ReduceSimulationDistance, CleanupWorldData, OptimizeWorldGeneration])
    case ExcessiveEntities =>
      Some([ReduceEntityCount, OptimizeEntityRendering, ImplementEntityCulling, AdjustSpawningSettings])
    case GcPressure => Some([OptimizeJvmFlags, AdjustMemoryAllocation, ReduceMemoryUsage, UpdateJavaVersion])
    case NetworkLag =>
      Some([OptimizeNetworkSettings, ReduceNetworkUsage, CheckInternetConnection, ChangeServer])
    case _ => None
  }

  // ---------------------------------------------------------------------------
  // Ranking

  /** The effectiveness matrix: a bonus for a few types against the FPS, memory
      and rendering issues, 5.0 (4.0 for memory issues) otherwise. */
  function BaseScore(t: SuggestionType, issue: PerformanceIssue): (s: real)
    ensures 4.0 <= s <= 9.5
  {
    match issue
    case LowFps | CriticalFps =>
      (match t
       case ReduceRenderDistance => 9.0
       case OptimizeGraphicsSettings => 8.5
       case DisableShaders => 9.5
       case ReduceParticles => 7.0
       case OptimizeEntityRendering => 7.5
       case _ => 5.0)
    case HighMemoryUsage | CriticalMemoryUsage =>
      (match t
       case AdjustMemoryAllocation => 9.0
       case CleanupWorldData => 8.0
       case RestartGame => 8.5
       case ReduceLoadedChunks => 7.5
       case _ => 4.0)
    case RenderLag | GpuBottleneck =>
      (match t
       case OptimizeGraphicsSettings => 9.0
       case UpdateDrivers => 8.5
       case DisableShaders => 9.0
       case ReduceRenderDistance => 7.5
       case _ => 5.0)
    case _ => 5.0
  }

  /** The matrix only distinguishes types for FPS, memory and rendering issues;
      every other issue scores all types alike, and a score of at least 8.0
      (which raises the priority) belongs to exactly these pairs. */
  lemma BaseScoreShape(t: SuggestionType, issue: PerformanceIssue)
    ensures !(issue in {LowFps, CriticalFps, HighMemoryUsage, CriticalMemoryUsage, RenderLag, GpuBottleneck})
            ==> BaseScore(t, issue) == 5.0
    ensures BaseScore(t, issue) >= 8.0 <==> HighlyEffective(t, issue)
  {
  }

  predicate HighlyEffective(t: SuggestionType, issue: PerformanceIssue)
  {
    || (issue in {LowFps, CriticalFps} && t in {ReduceRenderDistance, OptimizeGraphicsSettings, DisableShaders})
    || (issue in {HighMemoryUsage, CriticalMemoryUsage} && t in {AdjustMemoryAllocation, CleanupWorldData, RestartGame})
    || (issue in {RenderLag, GpuBottleneck} && t in {OptimizeGraphicsSettings, UpdateDrivers, DisableShaders})
  }

  /** The severity part of the multiplier: 2.0 for CRITICAL, 1.5 for HIGH, else 1.0. */
  function SeverityFactor(s: Sev.IssueSeverity): (m: real)
    ensures 1.0 <= m <= 2.0
  {
    match s
    case Critical => 2.0
    case High => 1.5
    case _ => 1.0
  }

  /** The frame-rate part: 1.8 below 15 fps, 1.3 below 30, else 1.0. */
  function FpsFactor(fps: int): (m: real)
    ensures 1.0 <= m <= 1.8
  {
    if fps < 15 then 1.8 else if fps < 30 then 1.3 else 1.0
  }

  /** The heap part: 1.6 above 90 % heap use, else 1.0. */
  function HeapFactor(heapPercent: real): (m: real)
    ensures 1.0 <= m <= 1.6
  {
    if heapPercent > 90.0 then 1.6 else 1.0
  }

  /** getSeverityMultiplier: the product of the three factors. */
  function SeverityMultiplier(issue: PerformanceIssue, f: Frames.PerformanceFrame): (m: real)
    ensures 1.0 <= m <= 5.76
  {
    var a := SeverityFactor(SeverityOf(issue));
    var b := FpsFactor(f.fps);
    var c := HeapFactor(f.memory.heapUsagePercent);
    FactorBounds(a, b, c);
    a * b * c
  }

  lemma FactorBounds(a: real, b: real, c: real)
    requires 1.0 <= a <= 2.0 && 1.0 <= b <= 1.8 && 1.0 <= c <= 1.6
    ensures 1.0 <= a * b * c <= 5.76
  {
    ScaleBetween(a, 1.0, 2.0, b);
    assert b <= a * b <= 2.0 * b;
    ScaleBetween(c, 1.0, 1.6, a * b);
    assert a * b <= a * b * c <= 1.6 * (a * b);
  }

  /** Multiplying a value in [lo, hi] by a positive factor keeps the order. */
  lemma ScaleBetween(x: real, lo: real, hi: real, k: real)
    requires lo <= x <= hi && k > 0.0
    ensures lo * k <= x * k <= hi * k
  {
  }

  /** The multiplier reaches its maximum 5.76 for a CRITICAL issue below 15 fps
      above 90 % heap, and a frame that is worse on both counts never lowers it. */
  lemma SeverityMultiplierMonotone(issue: PerformanceIssue, f: Frames.PerformanceFrame, g: Frames.PerformanceFrame)
    requires g.fps <= f.fps && g.memory.heapUsagePercent >= f.memory.heapUsagePercent
    ensures SeverityMultiplier(issue, f) <= SeverityMultiplier(issue, g)
    ensures SeverityOf(issue) == Sev.Critical && g.fps < 15 && g.memory.heapUsagePercent > 90.0
            ==> SeverityMultiplier(issue, g) == 5.76
  {
    var a := SeverityFactor(SeverityOf(issue));
    assert FpsFactor(f.fps) <= FpsFactor(g.fps);
    assert HeapFactor(f.memory.heapUsagePercent) <= HeapFactor(g.memory.heapUsagePercent);
    ProductMonotone(a, FpsFactor(f.fps), FpsFactor(g.fps), HeapFactor(f.memory.heapUsagePercent),
                    HeapFactor(g.memory.heapUsagePercent));
  }

  lemma ProductMonotone(a: real, b: real, b': real, c: real, c': real)
    requires a >= 1.0 && 1.0 <= b <= b' && 1.0 <= c <= c'
    ensures a * b * c <= a * b' * c'
  {
    assert a * b <= a * b';
    assert a * b * c <= a * b' * c;
    assert a * b' * c <= a * b' * c';
  }

  // ---------------------------------------------------------------------------
  // Priority, difficulty, impact and time

  /** calculatePriority before clamping: severity weight + 2, +3 below 15 fps or
      +1 below 30, +2 above 90 % heap, +1 for a matrix score of at least 8. */
  function RawPriority(issue: PerformanceIssue, f: Frames.PerformanceFrame, t: SuggestionType): int
  {
    Sev.Weight(SeverityOf(issue)) + 2
      + (if f.fps < 15 then 3 else if f.fps < 30 then 1 else 0)
      + (if f.memory.heapUsagePercent > 90.0 then 2 else 0)
      + (if BaseScore(t, issue) >= 8.0 then 1 else 0)
  }

  /** calculatePriority: the raw priority clamped to 1..10. Since the raw value is
      at least 3, the result lies in 3..10; a CRITICAL issue below 15 fps gets at
      least 9. */
  function Priority(issue: PerformanceIssue, f: Frames.PerformanceFrame, t: SuggestionType): (p: int)
    ensures 3 <= p <= 10
    ensures p == RawPriority(issue, f, t) || (p == 10 && RawPriority(issue, f, t) > 10)
    ensures SeverityOf(issue) == Sev.Critical && f.fps < 15 ==> p >= 9
  {
    Min(10, Max(1, RawPriority(issue, f, t)))
  }

  /** Lower fps, higher heap use or a more severe issue never lower the priority. */
  lemma PriorityMonotone(i: PerformanceIssue, j: PerformanceIssue, f: Frames.PerformanceFrame,
                         g: Frames.PerformanceFrame, t: SuggestionType)
    requires Sev.Ordinal(SeverityOf(i)) <= Sev.Ordinal(SeverityOf(j)) && BaseScore(t, i) <= BaseScore(t, j)
    requires g.fps <= f.fps && g.memory.heapUsagePercent >= f.memory.heapUsagePercent
    ensures Priority(i, f, t) <= Priority(j, g, t)
  {
  }

  /** getSuggestionCategory. */
  function CategoryOf(t: SuggestionType): (c: SuggestionCategory)
    ensures c == Graphics <==> t in {ReduceRenderDistance, OptimizeGraphicsSettings, DisableShaders,
                                     ReduceParticles, DisableSmoothLighting, OptimizeTexturePack}
    ensures c == General <==> t in {OptimizeEntityRendering, RestartGame, CloseUnnecessaryApplications,
                                    ReduceSimulationDistance, AdjustSpawningSettings, ReportBug,
                                    GeneralPerformanceTips}
  {
    match t
    case ReduceRenderDistance | OptimizeGraphicsSettings | DisableShaders | ReduceParticles
       | DisableSmoothLighting | OptimizeTexturePack => Graphics
    case AdjustMemoryAllocation | OptimizeJvmFlags | UpdateJavaVersion | ReduceMemoryUsage => Memory
    case CleanupWorldData | ReduceLoadedChunks | OptimizeWorldGeneration | ReduceEntityCount
       | ImplementEntityCulling => World
    case DisableProblematicMods | UpdateMods => Mods
    case UpdateDrivers | EnableHardwareAcceleration | OptimizeCpuSettings => Hardware
    case OptimizeNetworkSettings | ReduceNetworkUsage | CheckInternetConnection | ChangeServer => Network
    case _ => General
  }

  /** getSuggestionDifficulty, on the 1..5 scale. */
  function Difficulty(t: SuggestionType): (d: int)
    ensures 1 <= d <= 5
    ensures d == 1 <==> t in {ReduceRenderDistance, OptimizeGraphicsSettings, RestartGame,
                              ReduceParticles, DisableSmoothLighting}
    ensures d == 5 <==> t in {UpdateJavaVersion, EnableHardwareAcceleration, OptimizeCpuSettings}
  {
    match t
    case ReduceRenderDistance | OptimizeGraphicsSettings | RestartGame | ReduceParticles
       | DisableSmoothLighting => 1
    case AdjustMemoryAllocation | DisableProblematicMods | UpdateMods => 2
    case OptimizeJvmFlags | CleanupWorldData | UpdateDrivers => 3
    case ImplementEntityCulling | OptimizeWorldGeneration | OptimizeNetworkSettings => 4
    case UpdateJavaVersion | EnableHardwareAcceleration | OptimizeCpuSettings => 5
    case _ => 3
  }

  /** The impact table before the severity adjustment. */
  function BaseImpact(t: SuggestionType): (i: int)
    ensures 2 <= i <= 5
  {
    match t
    case ReduceRenderDistance | DisableShaders => 5
    case OptimizeGraphicsSettings | AdjustMemoryAllocation => 4
    case OptimizeJvmFlags | UpdateDrivers => 3
    case ReduceParticles | CleanupWorldData => 2
    case RestartGame | CloseUnnecessaryApplications => 3
    case _ => 2
  }

  /** getEstimatedImpact: the table value, one higher (capped at 5) for a CRITICAL
      issue; always in 2..5. */
  function Impact(t: SuggestionType, issue: PerformanceIssue): (i: int)
    ensures 2 <= i <= 5
    ensures SeverityOf(issue) != Sev.Critical ==> i == BaseImpact(t)
    ensures SeverityOf(issue) == Sev.Critical ==> i == Min(5, BaseImpact(t) + 1)
  {
    if SeverityOf(issue) == Sev.Critical then Min(5, BaseImpact(t) + 1) else BaseImpact(t)
  }

  /** A CRITICAL issue raises a type's impact by one, except where it is already
      at the top of the scale. */
  lemma CriticalRaisesImpact(t: SuggestionType, critical: PerformanceIssue, other: PerformanceIssue)
    requires SeverityOf(critical) == Sev.Critical && SeverityOf(other) != Sev.Critical
    ensures Impact(t, other) <= Impact(t, critical) <= Impact(t, other) + 1
    ensures Impact(t, critical) == Impact(t, other) <==> Impact(t, other) == 5
  {
  }

  /** getEstimatedImplementationTime, in minutes. */
  function EstimatedMinutes(t: SuggestionType): (m: int)
    ensures m in {1, 2, 5, 10, 15, 30, 45}
  {
    match t
    case ReduceRenderDistance | OptimizeGraphicsSettings | ReduceParticles | DisableSmoothLighting => 1
    case RestartGame | DisableProblematicMods => 2
    case AdjustMemoryAllocation | OptimizeJvmFlags => 5
    case UpdateDrivers | UpdateMods => 15
    case CleanupWorldData => 30
    case UpdateJavaVersion | EnableHardwareAcceleration => 45
    case _ => 10
  }

  // ---------------------------------------------------------------------------
  // Texts

  /** getSuggestionTitle. */
  function Title(t: SuggestionType): string
  {
    match t
    case ReduceRenderDistance => "Reduce Render Distance"
    case AdjustMemoryAllocation => "Adjust Memory Allocation"
    case OptimizeGraphicsSettings => "Optimize Graphics Settings"
    case CleanupWorldData => "Clean Up World Data"
    case RestartGame => "Restart Minecraft"
    case UpdateDrivers => "Update Graphics Drivers"
    case DisableProblematicMods => "Disable Problematic Mods"
    case OptimizeJvmFlags => "Optimize JVM Launch Flags"
    case ReduceParticles => "Reduce Particle Effects"
    case DisableSmoothLighting => "Disable Smooth Lighting"
    case OptimizeEntityRendering => "Optimize Entity Rendering"
    case ReduceLoadedChunks => "Reduce Loaded Chunks"
    case CloseUnnecessaryApplications => "Close Unnecessary Applications"
    case DisableShaders => "Disable Shaders"
    case OptimizeTexturePack => "Optimize Texture Pack"
    case ReduceSimulationDistance => "Reduce Simulation Distance"
    case OptimizeWorldGeneration => "Optimize World Generation"
    case ReduceEntityCount => "Reduce Entity Count"
    case ImplementEntityCulling => "Implement Entity Culling"
    case AdjustSpawningSettings => "Adjust Mob Spawning"
    case ReduceMemoryUsage => "Reduce Memory Usage"
    case UpdateJavaVersion => "Update Java Version"
    case OptimizeNetworkSettings => "Optimize Network Settings"
    case ReduceNetworkUsage => "Reduce Network Usage"
    case CheckInternetConnection => "Check Internet Connection"
    case ChangeServer => "Consider Changing Server"
    case EnableHardwareAcceleration => "Enable Hardware Acceleration"
    case OptimizeCpuSettings => "Optimize CPU Settings"
    case UpdateMods => "Update Mods"
    case ReportBug => "Report Performance Bug"
    case GeneralPerformanceTips => "General Performance Tips"
  }

  /** The low end of the memory advice "allocate %d-6GB" as the source computes
      it: half the installed memory, capped at 8. */
  function AllocationLowGBAsWritten(totalMemoryGB: int): int
  {
    Min(8, Trunc(totalMemoryGB as real * 0.5))
  }

  /** The advice's fixed upper end. */
  const AllocationHighGB: int := 6

  /** As written, a machine with 16 GB is advised to allocate "8-6GB": the low
      end passes the high end from 14 GB on. */
  lemma AllocationRangeInvertedAsWritten()
    ensures AllocationLowGBAsWritten(16) == 8 > AllocationHighGB
    ensures forall m :: 14 <= m ==> AllocationLowGBAsWritten(m) > AllocationHighGB
  {
    forall m | 14 <= m ensures AllocationLowGBAsWritten(m) > AllocationHighGB {
      assert m as real * 0.5 >= 7.0;
    }
  }

  /** The low end capped at the range's own upper end, the same half-the-memory
      figure the related setting `recommended_allocation_gb` reports. */
  function AllocationLowGB(totalMemoryGB: int): (gb: int)
    ensures gb <= AllocationHighGB
    ensures totalMemoryGB >= 0 ==> 0 <= gb && 2 * gb <= totalMemoryGB
    ensures totalMemoryGB <= 13 ==> gb == AllocationLowGBAsWritten(totalMemoryGB)
  {
    Min(6, Trunc(totalMemoryGB as real * 0.5))
  }

  /** The advice for memory allocation is a proper range. */
  lemma AllocationRangeProper(totalMemoryGB: int)
    ensures AllocationLowGB(totalMemoryGB) <= AllocationHighGB
    ensures 12 <= totalMemoryGB ==> AllocationLowGB(totalMemoryGB) == AllocationHighGB
  {
    if 12 <= totalMemoryGB {
      assert totalMemoryGB as real * 0.5 >= 6.0;
    }
  }

  /** getSuggestionDescription: the advice for a type, with the measured render
      distance or heap use interpolated where the template has them. */
  function DescriptionFor(t: SuggestionType, f: Frames.PerformanceFrame, hw: HW.HardwareProfile)
    : (d: Sg.Description)
    ensures d.RenderDistanceText? <==> t == ReduceRenderDistance
    ensures d.MemoryAllocationText? <==> t == AdjustMemoryAllocation
    ensures d.RestartText? <==> t == RestartGame
    ensures d.RenderDistanceText? ==> d.renderDistance == f.chunks.renderDistance
    ensures d.MemoryAllocationText? ==> d.lowGB <= d.highGB && d.heapUsagePercent == f.memory.heapUsagePercent
    ensures d.RestartText? ==> d.heapUsagePercent == f.memory.heapUsagePercent
  {
    if t == ReduceRenderDistance then Sg.RenderDistanceText(f.chunks.renderDistance)
    else if t == AdjustMemoryAllocation then
      Sg.MemoryAllocationText(f.memory.heapUsagePercent, AllocationLowGB(hw.totalMemoryGB), AllocationHighGB)
    else if t == RestartGame then Sg.RestartText(f.memory.heapUsagePercent)
    else if t == OptimizeGraphicsSettings then Sg.FixedText(Sg.GraphicsAdvice)
    else if t == CleanupWorldData then Sg.FixedText(Sg.CleanupAdvice)
    else if t == UpdateDrivers then Sg.FixedText(Sg.DriverAdvice)
    else if t == DisableProblematicMods then Sg.FixedText(Sg.ModAdvice)
    else if t == OptimizeJvmFlags then Sg.FixedText(Sg.JvmFlagAdvice)
    else Sg.FixedText(Sg.GenericAdvice)
  }

  /** getImplementationSteps: the type's instructions; three generic steps for
      the types without their own. */
  function Steps(t: SuggestionType): (i: Sg.Instructions)
    ensures Sg.StepCount(i) in {3, 5, 6, 8}
    ensures Sg.StepCount(i) == 3 <==> t !in {ReduceRenderDistance, AdjustMemoryAllocation, OptimizeGraphicsSettings,
                                             CleanupWorldData, RestartGame, OptimizeJvmFlags}
  {
    if t == ReduceRenderDistance then Sg.RenderDistanceSteps
    else if t == AdjustMemoryAllocation then Sg.MemoryAllocationSteps
    else if t == OptimizeGraphicsSettings then Sg.GraphicsSteps
    else if t == CleanupWorldData then Sg.CleanupSteps
    else if t == RestartGame then Sg.RestartSteps
    else if t == OptimizeJvmFlags then Sg.JvmFlagSteps
    else Sg.GenericSteps
  }

  /** The warnings shown with the risky types. */
  const MemoryWarnings: seq<string> :=
    ["⚠️ Don't allocate more than 70% of your total RAM",
     "⚠️ Too much RAM can actually hurt performance",
     "⚠️ Make sure you have enough RAM for your OS"]
  const JvmFlagWarnings: seq<string> :=
    ["⚠️ Backup your current launcher profile",
     "⚠️ Some flags may not work with all Java versions",
     "⚠️ Test thoroughly before using on important worlds"]
  const CleanupWarnings: seq<string> :=
    ["⚠️ ALWAYS backup your world before cleanup",
     "⚠️ Some changes may be irreversible",
     "⚠️ Test on a copy of your world first"]
  const ModWarnings: seq<string> :=
    ["⚠️ Disabling mods may affect world functionality",
     "⚠️ Some worlds may become unplayable without certain mods",
     "⚠️ Check mod dependencies before disabling"]

  /** getImplementationWarnings: three warnings for the risky types, none otherwise. */
  function Warnings(t: SuggestionType): (w: seq<string>)
    ensures |w| == 0 || |w| == 3
    ensures |w| == 3 <==> t in {AdjustMemoryAllocation, OptimizeJvmFlags, CleanupWorldData, DisableProblematicMods}
  {
    if t == AdjustMemoryAllocation then MemoryWarnings
    else if t == OptimizeJvmFlags then JvmFlagWarnings
    else if t == CleanupWorldData then CleanupWarnings
    else if t == DisableProblematicMods then ModWarnings
    else []
  }

  /** The prerequisites of the types that have some. */
  const MemoryRequirements: seq<string> :=
    ["Minimum 8GB system RAM recommended",
     "64-bit Java installation",
     "Administrative access to launcher settings"]
  const DriverRequirements: seq<string> :=
    ["Administrative privileges",
     "Internet connection",
     "Graphics card manufacturer's website access"]
  const JvmFlagRequirements: seq<string> :=
    ["Java 17 or newer",
     "Access to launcher settings",
     "Basic understanding of JVM parameters"]
  const CleanupRequirements: seq<string> :=
    ["World backup capability",
     "World editing tools (optional)",
     "Sufficient disk space for backups"]

  /** getRequirements: three prerequisites for four types, none otherwise. */
  function Requirements(t: SuggestionType): (r: seq<string>)
    ensures |r| == 0 || |r| == 3
    ensures |r| == 3 <==> t in {AdjustMemoryAllocation, UpdateDrivers, OptimizeJvmFlags, CleanupWorldData}
  {
    if t == AdjustMemoryAllocation then MemoryRequirements
    else if t == UpdateDrivers then DriverRequirements
    else if t == OptimizeJvmFlags then JvmFlagRequirements
    else if t == CleanupWorldData then CleanupRequirements
    else []
  }

  /** The render distance the advice recommends: four less than the current one,
      kept within 8..12 (the subtraction is 32-bit). */
  function RecommendedDistance(renderDistance: Int32): (d: int)
    ensures 8 <= d <= 12
    ensures 8 < renderDistance ==> d < renderDistance
    ensures 12 <= renderDistance - 4 <= IntMax ==> d == 12
  {
    Max(8, Min(12, Wrap32(renderDistance - 4)))
  }

  /** getRelatedSettings: the current and recommended render and simulation
      distances, the current heap figures and the recommended allocation, or the
      fast graphics presets; nothing for the other types. */
  function RelatedSettings(t: SuggestionType, f: Frames.PerformanceFrame, hw: HW.HardwareProfile)
    : (m: map<string, Sg.SettingValue>)
    ensures t == ReduceRenderDistance ==>
              m.Keys == {"current_render_distance", "recommended_distance", "simulation_distance"}
              && m["current_render_distance"] == Sg.IntSetting(f.chunks.renderDistance)
              && m["recommended_distance"] == Sg.IntSetting(RecommendedDistance(f.chunks.renderDistance))
              && m["simulation_distance"] == Sg.IntSetting(Min(10, f.chunks.renderDistance))
    ensures t == AdjustMemoryAllocation ==>
              m.Keys == {"current_usage_percent", "current_max_mb", "recommended_allocation_gb"}
              && m["current_usage_percent"] == Sg.RealSetting(f.memory.heapUsagePercent)
              && m["current_max_mb"] == Sg.IntSetting(JavaDiv(f.memory.heapMax, 1024 * 1024))
              && m["recommended_allocation_gb"] == Sg.IntSetting(AllocationLowGB(hw.totalMemoryGB))
    ensures t == OptimizeGraphicsSettings ==>
              m == map["graphics_mode" := Sg.TextSetting("fast"), "clouds" := Sg.TextSetting("off"),
                       "particles" := Sg.TextSetting("decreased"), "smooth_lighting" := Sg.BoolSetting(false)]
    ensures t !in {ReduceRenderDistance, AdjustMemoryAllocation, OptimizeGraphicsSettings} ==> m == map[]
  {
    match t
    case ReduceRenderDistance =>
      map["current_render_distance" := Sg.IntSetting(f.chunks.renderDistance),
          "recommended_distance" := Sg.IntSetting(RecommendedDistance(f.chunks.renderDistance)),
          "simulation_distance" := Sg.IntSetting(Min(10, f.chunks.renderDistance))]
    case AdjustMemoryAllocation =>
      map["current_usage_percent" := Sg.RealSetting(f.memory.heapUsagePercent),
          "current_max_mb" := Sg.IntSetting(JavaDiv(f.memory.heapMax, 1024 * 1024)),
          "recommended_allocation_gb" := Sg.IntSetting(Min(6, Trunc(hw.totalMemoryGB as real * 0.5)))]
    case OptimizeGraphicsSettings =>
      map["graphics_mode" := Sg.TextSetting("fast"), "clouds" := Sg.TextSetting("off"),
          "particles" := Sg.TextSetting("decreased"), "smooth_lighting" := Sg.BoolSetting(false)]
    case _ => map[]
  }

  /** canAutoImplement: the five settings-only types. */
  predicate CanAutoImplement(t: SuggestionType)
  {
    t in {ReduceRenderDistance, OptimizeGraphicsSettings, ReduceParticles, DisableSmoothLighting,
          ReduceSimulationDistance}
  }

  /** The types applied without asking are the low-risk ones: none carries a
      warning or a requirement, and each takes at most ten minutes. */
  lemma AutoImplementableAreLowRisk(t: SuggestionType)
    requires CanAutoImplement(t)
    ensures Warnings(t) == [] && Requirements(t) == []
    ensures EstimatedMinutes(t) <= 10
  {
  }

  /** The render distance auto-implementation moves to: two less, but not below 8
      (the subtraction is 32-bit). */
  function AutoRenderDistance(renderDistance: Int32): (d: int)
    ensures d >= 8
    ensures 10 <= renderDistance ==> d == renderDistance - 2
    ensures renderDistance <= 10 && IntMin + 2 <= renderDistance ==> d == 8
  {
    Max(8, Wrap32(renderDistance - 2))
  }
}
