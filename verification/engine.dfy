/** The optimisation engine: it answers a detected issue with the best-ranked
    applicable suggestion type, keeps per-type cooldowns, queues suggestions for
    the user, and learns from the user's ratings. The engine's static state is
    one immutable record threaded through the operations; the clock is the
    parameter `now` (epoch milliseconds) and the configuration switch for
    suggestions is the parameter `enabled`. */
module Engine {
  import opened Basics
  import opened SuggestionTypes
  import opened Issues
  import Str = Strings
  import Seqs = Sequences
  import Ctx = Context
  import Frames
  import HW = Hardware
  import Eff = Effectiveness
  import PS = Playstyle
  import Sg = Suggestion
  import Cat = Catalog
  import OS = OptimizationStats

  datatype EngineState = EngineState(
    queue: seq<Sg.OptimizationSuggestion>,
    lastSuggestionTime: map<SuggestionType, int>,
    effectiveness: map<SuggestionType, Eff.SuggestionEffectiveness>,
    preferred: map<HW.HardwareKey, set<SuggestionType>>,
    totalGenerated: nat,
    totalApplied: nat,
    hardware: HW.HardwareProfile,
    playstyle: PS.PlaystyleProfile,
    detectedMods: set<string>)

  /** The mods the engine records as installed (it does not scan the mods folder). */
  const InitialMods: set<string> := {"fabric-api", "smart-profiler"}

  /** The JVM-flag check is a stub that always answers "not optimal". */
  const HasOptimalJvmFlags: bool := false

  // ---------------------------------------------------------------------------
  // Lifecycle

  /** initialize: the detected hardware, a fresh playstyle profile and the
      built-in mod list; nothing queued, rated or on cooldown. */
  function Initialize(hw: HW.HardwareProfile, now: int): (st: EngineState)
    ensures st.hardware == hw && st.detectedMods == InitialMods
    ensures st.queue == [] && st.effectiveness == map[] && st.preferred == map[]
    ensures st.totalGenerated == 0 && st.totalApplied == 0
    ensures PS.Valid(st.playstyle)
    ensures forall t, later :: !OnCooldown(st, t, later)
    ensures !HasShaderMod(st.detectedMods)
  {
    InitialModsHaveNoShaderMod();
    EngineState([], map[], map[], map[], 0, 0, hw, PS.New(now), InitialMods)
  }

  /** shutdown: queue, cooldowns, ratings, preferences and mod list are cleared;
      the counters, the hardware and the playstyle profile stay. */
  function Shutdown(st: EngineState): (r: EngineState)
    ensures r.queue == [] && r.effectiveness == map[] && r.preferred == map[] && r.detectedMods == {}
    ensures forall t, later :: !OnCooldown(r, t, later)
    ensures r.totalGenerated == st.totalGenerated && r.totalApplied == st.totalApplied
    ensures r.hardware == st.hardware && r.playstyle == st.playstyle
    ensures !HasShaderMod(r.detectedMods)
  {
    st.(queue := [], lastSuggestionTime := map[], effectiveness := map[], preferred := map[],
        detectedMods := {})
  }

  // ---------------------------------------------------------------------------
  // Mods

  /** A mod name that marks a shader mod (compared in lower case). */
  predicate ShaderModName(name: string)
  {
    var n := Str.Lower(name);
    Str.Contains(n, "shader") || Str.Contains(n, "iris") || Str.Contains(n, "optifine")
  }

  /** hasShaderMod. */
  predicate HasShaderMod(mods: set<string>)
  {
    exists m :: m in mods && ShaderModName(m)
  }

  /** Neither built-in mod name is a shader mod. */
  lemma InitialModsHaveNoShaderMod()
    ensures !HasShaderMod(InitialMods)
  {
    forall m | m in InitialMods ensures !ShaderModName(m) {
      if m == "fabric-api" {
        FabricApiIsNoShaderMod();
      } else {
        SmartProfilerIsNoShaderMod();
      }
    }
  }

  lemma FabricApiIsNoShaderMod()
    ensures !ShaderModName("fabric-api")
  {
    var a := "fabric-api";
    assert forall i :: 0 <= i < |a| ==> Str.Lower(a)[i] == a[i];
    PlainNameNotShader(a);
  }

  lemma SmartProfilerIsNoShaderMod()
    ensures !ShaderModName("smart-profiler")
  {
    var b := "smart-profiler";
    assert forall i :: 0 <= i < |b| ==> Str.Lower(b)[i] == b[i];
    PlainNameNotShader(b);
  }

  /** A lower-case name in which no "s" precedes an "h", no "i" an "r" and no
      "o" a "p" contains none of the shader markers. */
  lemma PlainNameNotShader(n: string)
    requires Str.Lower(n) == n
    requires forall i :: 0 <= i < |n| - 1 ==>
               (n[i] != 's' || n[i + 1] != 'h') && (n[i] != 'i' || n[i + 1] != 'r')
               && (n[i] != 'o' || n[i + 1] != 'p')
    ensures !ShaderModName(n)
  {
    Str.NoAdjacentPair(n, "shader");
    Str.NoAdjacentPair(n, "iris");
    Str.NoAdjacentPair(n, "optifine");
  }

  // ---------------------------------------------------------------------------
  // Cooldowns

  /** isSuggestionOnCooldown: the type was suggested before and its cooldown,
      if the table has one, has not yet run out. */
  predicate OnCooldown(st: EngineState, t: SuggestionType, now: int)
  {
    t in st.lastSuggestionTime && Cat.Cooldown(t).Some?
    && now - st.lastSuggestionTime[t] < Cat.Cooldown(t).value
  }

  /** Only the eight types with a cooldown entry can be on cooldown, and a
      suggestion recorded at `now` keeps such a type blocked for exactly its
      cooldown. */
  lemma CooldownWindow(st: EngineState, t: SuggestionType, issued: int, now: int)
    ensures OnCooldown(st, t, now) ==> Cat.Cooldown(t).Some?
    ensures !OnCooldown(st, GeneralPerformanceTips, now)
    ensures var s := st.(lastSuggestionTime := st.lastSuggestionTime[t := issued]);
            OnCooldown(s, t, now) <==> Cat.Cooldown(t).Some? && now < issued + Cat.Cooldown(t).value
  {
  }

  // ---------------------------------------------------------------------------
  // Filtering

  /** isApplicableInContext. */
  predicate IsApplicable(st: EngineState, t: SuggestionType, ctx: Ctx.AnalysisContext, f: Frames.PerformanceFrame)
  {
    if t == ReduceRenderDistance then f.chunks.renderDistance > 8
    else if t == AdjustMemoryAllocation then st.hardware.totalMemoryGB >= 8
    else if t == DisableShaders then HasShaderMod(st.detectedMods)
    else if t == ReduceSimulationDistance then ctx == Ctx.HeavyWorld
    else if t == OptimizeEntityRendering then f.entities.renderedEntities > 100
    else if t == UpdateDrivers then st.hardware.gpuType != HW.Integrated
    else if t == OptimizeJvmFlags then !HasOptimalJvmFlags
    else true
  }

  /** isCompatibleWithHardware. */
  predicate IsCompatible(t: SuggestionType, hw: HW.HardwareProfile)
  {
    if t == EnableHardwareAcceleration then hw.gpuType != HW.NoGpu
    else if t == AdjustMemoryAllocation then hw.totalMemoryGB >= 4
    else if t == UpdateDrivers then hw.gpuType != HW.Integrated
    else if t == OptimizeCpuSettings then hw.cpuCores >= 4
    else true
  }

  /** filterCandidatesByContext keeps a candidate that is applicable,
      compatible and not on cooldown. */
  predicate Survives(st: EngineState, t: SuggestionType, ctx: Ctx.AnalysisContext,
                     f: Frames.PerformanceFrame, now: int)
  {
    IsApplicable(st, t, ctx, f) && IsCompatible(t, st.hardware) && !OnCooldown(st, t, now)
  }

  /** The surviving candidates of a tabled issue, in table order. */
  function Survivors(st: EngineState, issue: PerformanceIssue, f: Frames.PerformanceFrame,
                     ctx: Ctx.AnalysisContext, now: int): (s: seq<SuggestionType>)
    requires Cat.Tabled(issue)
    ensures forall t :: t in s <==> t in Cat.Candidates(issue).value && Survives(st, t, ctx, f, now)
    ensures Seqs.Distinct(s)
  {
    var c := Cat.Candidates(issue).value;
    var p := t => Survives(st, t, ctx, f, now);
    Seqs.FilterKeepsDistinct(c, p);
    Seqs.Filter(c, p)
  }

  // ---------------------------------------------------------------------------
  // Ranking

  /** The factor a type's rating history applies: 0.5 plus a fifth of its
      average rating, or 1 for a type nobody has rated. */
  function HistoryFactor(st: EngineState, t: SuggestionType): real
  {
    if t in st.effectiveness then 0.5 + Eff.AverageEffectiveness(st.effectiveness[t]) / 5.0 else 1.0
  }

  /** The user rated the type 4 or 5 on this hardware. */
  predicate Preferred(st: EngineState, t: SuggestionType)
  {
    HW.Key(st.hardware) in st.preferred && t in st.preferred[HW.Key(st.hardware)]
  }

  /** The 20 % bonus for a preferred type. */
  function PreferenceFactor(st: EngineState, t: SuggestionType): (k: real)
    ensures k == 1.2 <==> Preferred(st, t)
    ensures k == 1.0 <==> !Preferred(st, t)
  {
    if Preferred(st, t) then 1.2 else 1.0
  }

  /** calculateSuggestionScore: matrix score, times the history factor, times
      1.2 for a preferred type, times the severity multiplier. */
  function Score(st: EngineState, t: SuggestionType, issue: PerformanceIssue, f: Frames.PerformanceFrame): real
  {
    Product(Cat.BaseScore(t, issue), HistoryFactor(st, t), PreferenceFactor(st, t), Cat.SeverityMultiplier(issue, f))
  }

  function Product(b: real, h: real, p: real, m: real): real
  {
    b * h * p * m
  }

  /** Every rating log the engine holds is well formed. */
  predicate TrackersValid(st: EngineState)
  {
    forall t :: t in st.effectiveness ==> Eff.Valid(st.effectiveness[t])
  }

  /** A score between 0.7 and 1.8 times the matrix score times the severity
      multiplier. */
  predicate WithinScoreRange(x: real, b: real, m: real)
  {
    0.7 * b * m <= x <= 1.8 * b * m
  }

  /** With well-formed logs, history scales the matrix score by 0.7 to 1.5 and
      the preference bonus by at most 1.2 more, so a score lies between 0.7 and
      1.8 times the matrix score times the severity multiplier. */
  lemma ScoreBounds(st: EngineState, t: SuggestionType, issue: PerformanceIssue, f: Frames.PerformanceFrame)
    requires TrackersValid(st)
    ensures WithinScoreRange(Score(st, t, issue, f), Cat.BaseScore(t, issue), Cat.SeverityMultiplier(issue, f))
  {
    var b := Cat.BaseScore(t, issue);
    var h := HistoryFactor(st, t);
    var p := PreferenceFactor(st, t);
    var m := Cat.SeverityMultiplier(issue, f);
    ScoreFactorsInRange(st, t, issue, f);
    ProductBounds(b, h, p, m);
    assert Score(st, t, issue, f) == Product(b, h, p, m);
  }

  /** The ranges of the four score factors. */
  predicate FactorsInRange(b: real, h: real, p: real, m: real)
  {
    b > 0.0 && m > 0.0 && 0.7 <= h <= 1.5 && (p == 1.0 || p == 1.2)
  }

  lemma ScoreFactorsInRange(st: EngineState, t: SuggestionType, issue: PerformanceIssue, f: Frames.PerformanceFrame)
    requires TrackersValid(st)
    ensures FactorsInRange(Cat.BaseScore(t, issue), HistoryFactor(st, t), PreferenceFactor(st, t),
                           Cat.SeverityMultiplier(issue, f))
  {
    HistoryFactorBounds(st, t);
  }

  lemma ProductBounds(b: real, h: real, p: real, m: real)
    requires FactorsInRange(b, h, p, m)
    ensures WithinScoreRange(Product(b, h, p, m), b, m)
  {
    var bh := h * b;
    assert 0.7 * b <= bh <= 1.5 * b by {
      Cat.ScaleBetween(h, 0.7, 1.5, b);
    }
    var bhp := bh * p;
    assert 0.7 * b <= bhp <= 1.8 * b by {
      if p == 1.2 {
        Cat.ScaleBetween(bh, 0.7 * b, 1.5 * b, 1.2);
        assert (0.7 * b) * 1.2 == 0.84 * b && (1.5 * b) * 1.2 == 1.8 * b;
      } else {
        assert bhp == bh;
      }
    }
    assert 0.7 * b * m <= bhp * m <= 1.8 * b * m by {
      Cat.ScaleBetween(bhp, 0.7 * b, 1.8 * b, m);
    }
    assert Product(b, h, p, m) == bhp * m;
  }

  lemma HistoryFactorBounds(st: EngineState, t: SuggestionType)
    requires TrackersValid(st)
    ensures 0.7 <= HistoryFactor(st, t) <= 1.5
  {
    if t in st.effectiveness && |st.effectiveness[t].ratings| > 0 {
      Eff.AverageIsMean(st.effectiveness[t]);
    }
  }

  /** determineSuggestionType: GENERAL_PERFORMANCE_TIPS for an issue without a
      candidate row; otherwise the best-scoring surviving candidate, the first
      in table order among equal scores (the sort is stable), or none when no
      candidate survives. */
  function DetermineSuggestionType(st: EngineState, issue: PerformanceIssue, f: Frames.PerformanceFrame,
                                   ctx: Ctx.AnalysisContext, now: int): (r: Option<SuggestionType>)
    ensures !Cat.Tabled(issue) ==> r == Some(GeneralPerformanceTips)
    ensures Cat.Tabled(issue) ==> (r.None? <==> Survivors(st, issue, f, ctx, now) == [])
    ensures Cat.Tabled(issue) && r.Some? ==>
              r.value in Cat.Candidates(issue).value && Survives(st, r.value, ctx, f, now)
    ensures Cat.Tabled(issue) && r.Some? ==>
              forall u :: u in Cat.Candidates(issue).value && Survives(st, u, ctx, f, now) ==>
                Score(st, u, issue, f) <= Score(st, r.value, issue, f)
    ensures Cat.Tabled(issue) && r.Some? ==>
              var s := Survivors(st, issue, f, ctx, now);
              forall j, k :: 0 <= j < k < |s| && s[k] == r.value ==>
                Score(st, s[j], issue, f) < Score(st, r.value, issue, f)
  {
    if !Cat.Tabled(issue) then Some(GeneralPerformanceTips)
    else
      var s := Survivors(st, issue, f, ctx, now);
      if |s| == 0 then None
      else
        var score := u => Score(st, u, issue, f);
        Seqs.SortDescHead(s, score);
        var i := Seqs.FirstMax(s, score);
        assert s[i] in s;
        Some(Seqs.SortDesc(s, score)[0])
  }

  /** No candidate table offers GENERAL_PERFORMANCE_TIPS, and DISABLE_SHADERS is
      never chosen while no shader mod is installed (as with the built-in mod
      list). */
  lemma ShadersNeedAShaderMod(st: EngineState, issue: PerformanceIssue, f: Frames.PerformanceFrame,
                              ctx: Ctx.AnalysisContext, now: int)
    requires !HasShaderMod(st.detectedMods)
    ensures DetermineSuggestionType(st, issue, f, ctx, now) != Some(DisableShaders)
    ensures Cat.Tabled(issue) ==> DetermineSuggestionType(st, issue, f, ctx, now) != Some(GeneralPerformanceTips)
  {
  }

  // ---------------------------------------------------------------------------
  // Generation

  /** createSuggestion: the builder filled from the catalog tables; the four
      required parts are always given, so the build always succeeds. */
  function CreateSuggestion(st: EngineState, issue: PerformanceIssue, f: Frames.PerformanceFrame,
                            ctx: Ctx.AnalysisContext, t: SuggestionType, now: int)
    : (s: Sg.OptimizationSuggestion)
    ensures s.suggestionType == t && s.relatedIssue == Some(issue) && s.context == Some(ctx)
    ensures s.createdAt == now && !s.applied && s.appliedAt.None? && s.userFeedback.None?
    ensures 3 <= s.priority <= 10 && 1 <= s.difficulty <= 5 && 2 <= s.estimatedImpact <= 5
    ensures s.canAutoImplement == s.hasAutoAction == Cat.CanAutoImplement(t)
    ensures s.canAutoImplement ==> s.warnings == [] && s.requirements == [] && s.estimatedTimeMinutes <= 10
    ensures s.description.MemoryAllocationText? ==> s.description.lowGB <= s.description.highGB
  {
    var b := Sg.NewBuilder.(
      suggestionType := Some(t),
      priority := Cat.Priority(issue, f, t),
      title := Some(Cat.Title(t)),
      description := Some(Cat.DescriptionFor(t, f, st.hardware)),
      category := Some(Cat.CategoryOf(t)),
      difficulty := Cat.Difficulty(t),
      estimatedImpact := Cat.Impact(t, issue),
      estimatedTimeMinutes := Cat.EstimatedMinutes(t),
      relatedIssue := Some(issue),
      context := Some(ctx),
      implementationSteps := Cat.Steps(t),
      warnings := Cat.Warnings(t),
      requirements := Cat.Requirements(t),
      relatedSettings := Cat.RelatedSettings(t, f, st.hardware),
      canAutoImplement := Cat.CanAutoImplement(t),
      hasAutoAction := Cat.CanAutoImplement(t));
    var r := Sg.Build(b, now);
    assert Cat.CanAutoImplement(t) ==> Cat.Warnings(t) == [] && Cat.Requirements(t) == []
                                       && Cat.EstimatedMinutes(t) <= 10 by {
      if Cat.CanAutoImplement(t) {
        Cat.AutoImplementableAreLowRisk(t);
      }
    }
    r.value
  }

  /** generateSuggestion: nothing while suggestions are disabled, when no type
      is found, or when the chosen type is on cooldown; otherwise a suggestion of
      the chosen type, with the type's cooldown started and the generation
      counter advanced. */
  function GenerateSuggestion(st: EngineState, enabled: bool, issue: PerformanceIssue,
                              f: Frames.PerformanceFrame, ctx: Ctx.AnalysisContext, now: int)
    : (r: (Option<Sg.OptimizationSuggestion>, EngineState))
    ensures !enabled ==> r == (None, st)
    ensures r.0.None? ==> r.1 == st
    ensures enabled && r.0.None? ==>
              var d := DetermineSuggestionType(st, issue, f, ctx, now);
              d.None? || OnCooldown(st, d.value, now)
    ensures r.0.Some? ==>
              var t := r.0.value.suggestionType;
              && enabled && Some(t) == DetermineSuggestionType(st, issue, f, ctx, now)
              && !OnCooldown(st, t, now)
              && r.0.value.relatedIssue == Some(issue) && r.0.value.createdAt == now
              && r.1 == st.(lastSuggestionTime := st.lastSuggestionTime[t := now],
                            totalGenerated := st.totalGenerated + 1)
  {
    if !enabled then (None, st)
    else
      match DetermineSuggestionType(st, issue, f, ctx, now)
      case None => (None, st)
      case Some(t) =>
        if OnCooldown(st, t, now) then (None, st)
        else
          (Some(CreateSuggestion(st, issue, f, ctx, t, now)),
           st.(lastSuggestionTime := st.lastSuggestionTime[t := now], totalGenerated := st.totalGenerated + 1))
  }

  /** Generation yields a suggestion exactly when a type is found and is not
      on cooldown: for an issue without a candidate row that is
      GENERAL_PERFORMANCE_TIPS, which has no cooldown, so it is always
      generated. */
  lemma GenerationFollowsDecision(st: EngineState, issue: PerformanceIssue, f: Frames.PerformanceFrame,
                                  ctx: Ctx.AnalysisContext, now: int)
    ensures var r := GenerateSuggestion(st, true, issue, f, ctx, now).0;
            var d := DetermineSuggestionType(st, issue, f, ctx, now);
            r.Some? <==> d.Some? && !OnCooldown(st, d.value, now)
    ensures !Cat.Tabled(issue) ==>
              var r := GenerateSuggestion(st, true, issue, f, ctx, now).0;
              r.Some? && r.value.suggestionType == GeneralPerformanceTips
  {
  }

  /** Generating a suggestion starts its type's cooldown exactly when the type
      has one. */
  lemma GenerationStartsCooldown(st: EngineState, issue: PerformanceIssue, f: Frames.PerformanceFrame,
                                 ctx: Ctx.AnalysisContext, now: int)
    ensures var (s, st') := GenerateSuggestion(st, true, issue, f, ctx, now);
            s.Some? ==> (OnCooldown(st', s.value.suggestionType, now) <==> Cat.Cooldown(s.value.suggestionType).Some?)
  {
  }

  /** Right after a suggestion is generated, the same issue in the same
      situation does not yield that type again while its cooldown runs (types
      without a cooldown may repeat). */
  lemma NoRepeatWithinCooldown(st: EngineState, issue: PerformanceIssue, f: Frames.PerformanceFrame,
                               ctx: Ctx.AnalysisContext, now: int, later: int)
    ensures var (s, st') := GenerateSuggestion(st, true, issue, f, ctx, now);
            var (s2, _) := GenerateSuggestion(st', true, issue, f, ctx, later);
            s.Some? && Cat.Cooldown(s.value.suggestionType).Some?
            && now <= later < now + Cat.Cooldown(s.value.suggestionType).value
            ==> s2.None? || s2.value.suggestionType != s.value.suggestionType
  {
    var (s, st') := GenerateSuggestion(st, true, issue, f, ctx, now);
    if s.Some? {
      var t := s.value.suggestionType;
      if Cat.Cooldown(t).Some? && now <= later < now + Cat.Cooldown(t).value {
        assert OnCooldown(st', t, later);
      }
    }
  }

  // ---------------------------------------------------------------------------
  // Queue

  /** The queue never holds two equal suggestions (same type and issue). */
  predicate NoDuplicates(q: seq<Sg.OptimizationSuggestion>)
  {
    forall i, j :: 0 <= i < j < |q| ==> !Sg.SameSuggestion(q[i], q[j])
  }

  /** The queue holds a suggestion equal to `s`. */
  predicate Queued(q: seq<Sg.OptimizationSuggestion>, s: Sg.OptimizationSuggestion)
  {
    exists k :: 0 <= k < |q| && Sg.SameSuggestion(q[k], s)
  }

  /** queueSuggestion: a missing suggestion, or one equal to a queued one, is
      ignored; otherwise it joins the end of the queue. */
  function QueueSuggestion(st: EngineState, s: Option<Sg.OptimizationSuggestion>): (r: EngineState)
    ensures s.None? ==> r == st
    ensures s.Some? && Queued(st.queue, s.value) ==> r == st
    ensures s.Some? && !Queued(st.queue, s.value) ==> r == st.(queue := st.queue + [s.value])
    ensures s.Some? ==> Queued(r.queue, s.value)
    ensures NoDuplicates(st.queue) ==> NoDuplicates(r.queue)
  {
    if s.None? || Queued(st.queue, s.value) then st
    else
      var q := st.queue + [s.value];
      assert Sg.SameSuggestion(q[|st.queue|], s.value);
      st.(queue := q)
  }

  /** Queuing the same suggestion twice queues it once. */
  lemma QueueIdempotent(st: EngineState, s: Option<Sg.OptimizationSuggestion>)
    ensures QueueSuggestion(QueueSuggestion(st, s), s) == QueueSuggestion(st, s)
  {
  }

  /** getNextSuggestion: the oldest queued suggestion, removed from the queue;
      none when the queue is empty. */
  function NextSuggestion(st: EngineState): (r: (Option<Sg.OptimizationSuggestion>, EngineState))
    ensures |st.queue| == 0 ==> r == (None, st)
    ensures |st.queue| > 0 ==> r.0 == Some(st.queue[0]) && r.1 == st.(queue := st.queue[1..])
    ensures |r.1.queue| == |st.queue| - (if |st.queue| > 0 then 1 else 0)
  {
    if |st.queue| == 0 then (None, st) else (Some(st.queue[0]), st.(queue := st.queue[1..]))
  }

  /** Suggestions come out in the order they were queued. */
  lemma FirstInFirstOut(st: EngineState, a: Sg.OptimizationSuggestion, b: Sg.OptimizationSuggestion)
    requires st.queue == [] && !Sg.SameSuggestion(a, b)
    ensures var q := QueueSuggestion(QueueSuggestion(st, Some(a)), Some(b));
            var (x, q1) := NextSuggestion(q);
            var (y, q2) := NextSuggestion(q1);
            x == Some(a) && y == Some(b) && q2.queue == []
  {
    var q0 := QueueSuggestion(st, Some(a));
    assert q0.queue == [a];
    assert !Queued(q0.queue, b) by {
      assert Sg.SameSuggestion(a, b) == Sg.SameSuggestion(b, a);
    }
  }

  /** clearSuggestions: the queue is emptied and nothing else changes. */
  function ClearSuggestions(st: EngineState): (r: EngineState)
    ensures r.queue == [] && r.(queue := st.queue) == st
  {
    st.(queue := [])
  }

  // ---------------------------------------------------------------------------
  // Learning from ratings

  /** The log a rating goes to: the type's existing log, or a new one. */
  function TrackerFor(st: EngineState, t: SuggestionType, now: int): (e: Eff.SuggestionEffectiveness)
    ensures t in st.effectiveness ==> e == st.effectiveness[t]
    ensures t !in st.effectiveness ==> |e.ratings| == 0 && Eff.Valid(e)
  {
    if t in st.effectiveness then st.effectiveness[t] else Eff.New(t, now)
  }

  /** recordSuggestionEffectiveness: the type's log is created if missing; a
      rating outside 1..5 is then rejected (the log's exception), leaving
      everything else as it was. An accepted rating is appended to the log, and
      a rating of 4 or 5 marks the type as preferred on this hardware. The
      second component tells whether the rating was rejected. */
  function RecordSuggestionEffectiveness(st: EngineState, t: SuggestionType, rating: int, feedback: string,
                                         now: int, weight: int -> real): (r: (EngineState, bool))
    requires Eff.PositiveWeight(weight)
    ensures r.1 <==> rating < 1 || rating > 5
    ensures r.1 ==> r.0 == st.(effectiveness := st.effectiveness[t := TrackerFor(st, t, now)])
    ensures t in r.0.effectiveness && r.0.effectiveness == st.effectiveness[t := r.0.effectiveness[t]]
    ensures !r.1 ==> r.0.effectiveness[t].ratings == TrackerFor(st, t, now).ratings + [Eff.Rating(rating, feedback, now)]
    ensures !r.1 ==> (Preferred(r.0, t) <==> Preferred(st, t) || rating >= 4)
    ensures r.0.preferred == (if !r.1 && rating >= 4 then MarkPreferred(st, t).preferred else st.preferred)
    ensures r.0 == st.(effectiveness := r.0.effectiveness, preferred := r.0.preferred)
  {
    var e := TrackerFor(st, t, now);
    Store(st, t, e, Eff.AddRating(e, rating, feedback, now, weight), rating)
  }

  /** The second half of recording a rating: the log `e`, or the rated log when
      the rating was accepted, replaces the type's entry; an accepted rating of
      4 or 5 also marks the type as preferred. */
  function Store(st: EngineState, t: SuggestionType, e: Eff.SuggestionEffectiveness,
                 added: Result<Eff.SuggestionEffectiveness, string>, rating: int): (r: (EngineState, bool))
    ensures r.1 <==> added.Err?
    ensures r.0.effectiveness == st.effectiveness[t := if added.Ok? then added.value else e]
    ensures r.0.preferred == (if added.Ok? && rating >= 4 then MarkPreferred(st, t).preferred else st.preferred)
    ensures r.0 == st.(effectiveness := r.0.effectiveness, preferred := r.0.preferred)
  {
    match added
    case Err(_) => (st.(effectiveness := st.effectiveness[t := e]), true)
    case Ok(e') =>
      var rated := st.(effectiveness := st.effectiveness[t := e']);
      if rating >= 4 then (MarkPreferred(rated, t), false) else (rated, false)
  }

  /** Adds the type to the preferred set of the current hardware. */
  function MarkPreferred(st: EngineState, t: SuggestionType): (r: EngineState)
    ensures Preferred(r, t)
    ensures forall u :: u != t ==> Preferred(r, u) == Preferred(st, u)
    ensures r == st.(preferred := r.preferred)
  {
    var k := HW.Key(st.hardware);
    var prefs := if k in st.preferred then st.preferred[k] else {};
    st.(preferred := st.preferred[k := prefs + {t}])
  }

  /** Recording a rating touches no other type: its preference and its log
      stay, and well-formed logs stay well formed. */
  lemma RatingTouchesOnlyItsType(st: EngineState, t: SuggestionType, rating: int, feedback: string,
                                 now: int, weight: int -> real, u: SuggestionType)
    requires Eff.PositiveWeight(weight) && u != t
    ensures var r := RecordSuggestionEffectiveness(st, t, rating, feedback, now, weight).0;
            && Preferred(r, u) == Preferred(st, u)
            && (u in r.effectiveness <==> u in st.effectiveness)
            && (u in st.effectiveness ==> r.effectiveness[u] == st.effectiveness[u])
  {
    RatingKeepsOtherPreference(st, t, rating, feedback, now, weight, u);
    RatingKeepsOtherLogs(st, t, rating, feedback, now, weight, u);
  }

  lemma RatingKeepsOtherPreference(st: EngineState, t: SuggestionType, rating: int, feedback: string,
                                   now: int, weight: int -> real, u: SuggestionType)
    requires Eff.PositiveWeight(weight) && u != t
    ensures Preferred(RecordSuggestionEffectiveness(st, t, rating, feedback, now, weight).0, u) == Preferred(st, u)
  {
    var e := TrackerFor(st, t, now);
    StoreKeepsOtherPreference(st, t, e, Eff.AddRating(e, rating, feedback, now, weight), rating, u);
  }

  lemma StoreKeepsOtherPreference(st: EngineState, t: SuggestionType, e: Eff.SuggestionEffectiveness,
                                  added: Result<Eff.SuggestionEffectiveness, string>, rating: int, u: SuggestionType)
    requires u != t
    ensures Preferred(Store(st, t, e, added, rating).0, u) == Preferred(st, u)
  {
    var r := Store(st, t, e, added, rating).0;
    var p := if added.Ok? && rating >= 4 then MarkPreferred(st, t) else st;
    assert Preferred(p, u) == Preferred(st, u);
    assert r.preferred == p.preferred && r.hardware == p.hardware;
    SamePreferences(r, p, u);
  }

  lemma SamePreferences(a: EngineState, b: EngineState, u: SuggestionType)
    requires a.hardware == b.hardware && a.preferred == b.preferred
    ensures Preferred(a, u) == Preferred(b, u)
  {
  }

  lemma RatingKeepsOtherLogs(st: EngineState, t: SuggestionType, rating: int, feedback: string,
                             now: int, weight: int -> real, u: SuggestionType)
    requires Eff.PositiveWeight(weight) && u != t
    ensures var m := RecordSuggestionEffectiveness(st, t, rating, feedback, now, weight).0.effectiveness;
            && (u in m <==> u in st.effectiveness)
            && (u in st.effectiveness ==> m[u] == st.effectiveness[u])
  {
    var m := RecordSuggestionEffectiveness(st, t, rating, feedback, now, weight).0.effectiveness;
    assert m == st.effectiveness[t := m[t]];
  }

  lemma RatingKeepsTrackersValid(st: EngineState, t: SuggestionType, rating: int, feedback: string,
                                 now: int, weight: int -> real)
    requires Eff.PositiveWeight(weight) && TrackersValid(st)
    ensures TrackersValid(RecordSuggestionEffectiveness(st, t, rating, feedback, now, weight).0)
  {
    var m := RecordSuggestionEffectiveness(st, t, rating, feedback, now, weight).0.effectiveness;
    RatedLogValid(st, t, rating, feedback, now, weight);
    forall u | u in m ensures Eff.Valid(m[u]) {
      if u != t {
        RatingKeepsOtherLogs(st, t, rating, feedback, now, weight, u);
      }
    }
  }

  lemma RatedLogValid(st: EngineState, t: SuggestionType, rating: int, feedback: string,
                      now: int, weight: int -> real)
    requires Eff.PositiveWeight(weight) && TrackersValid(st)
    ensures var m := RecordSuggestionEffectiveness(st, t, rating, feedback, now, weight).0.effectiveness;
            t in m && Eff.Valid(m[t])
  {
    var e := TrackerFor(st, t, now);
    assert Eff.Valid(e);
    var added := Eff.AddRating(e, rating, feedback, now, weight);
    assert added.Ok? ==> Eff.Valid(added.value);
    StoredLogValid(st, t, e, added, rating);
  }

  lemma StoredLogValid(st: EngineState, t: SuggestionType, e: Eff.SuggestionEffectiveness,
                       added: Result<Eff.SuggestionEffectiveness, string>, rating: int)
    requires Eff.Valid(e) && (added.Ok? ==> Eff.Valid(added.value))
    ensures var m := Store(st, t, e, added, rating).0.effectiveness;
            t in m && Eff.Valid(m[t])
  {
  }

  /** A rating of 4 or 5 makes the rated type preferred, so its score from then
      on carries the 1.2 preference factor. */
  lemma GoodRatingIsRemembered(st: EngineState, t: SuggestionType, rating: int, now: int, weight: int -> real)
    requires Eff.PositiveWeight(weight) && 4 <= rating <= 5
    ensures Preferred(RecordSuggestionEffectiveness(st, t, rating, "", now, weight).0, t)
    ensures PreferenceFactor(RecordSuggestionEffectiveness(st, t, rating, "", now, weight).0, t) == 1.2
  {
  }

  // ---------------------------------------------------------------------------
  // Auto-implementation and statistics

  /** Running a suggestion's automatic action: only suggestions that allow it
      and carry an action run; the engine's action catches its own errors, so
      running it always counts as applied. */
  function AutoImplement(st: EngineState, s: Sg.OptimizationSuggestion, now: int)
    : (r: (bool, Sg.OptimizationSuggestion, EngineState))
    ensures r.0 <==> s.canAutoImplement && s.hasAutoAction
    ensures r.0 ==> r.1.applied && r.1.appliedAt == Some(now)
                    && r.2 == st.(totalApplied := st.totalApplied + 1)
    ensures !r.0 ==> r.1 == s && r.2 == st
  {
    var (ok, s') := Sg.ExecuteAutoImplementation(s, false, now);
    (ok, s', if ok then st.(totalApplied := st.totalApplied + 1) else st)
  }

  /** A generated suggestion applies itself exactly when its type is one of the
      five settings-only types. */
  lemma GeneratedAutoImplementation(st: EngineState, issue: PerformanceIssue, f: Frames.PerformanceFrame,
                                    ctx: Ctx.AnalysisContext, now: int, later: int)
    ensures var (s, st') := GenerateSuggestion(st, true, issue, f, ctx, now);
            s.Some? ==> (AutoImplement(st', s.value, later).0 <==> Cat.CanAutoImplement(s.value.suggestionType))
  {
  }

  /** getStatistics. */
  function GetStatistics(st: EngineState): (r: OS.OptimizationStatistics)
    ensures r.totalSuggestionsGenerated == st.totalGenerated && r.totalSuggestionsApplied == st.totalApplied
    ensures r.pendingSuggestions == |st.queue| && r.trackedSuggestionTypes == |st.effectiveness|
    ensures r.hardwareProfile == st.hardware && r.playstyleProfile == st.playstyle
  {
    OS.OptimizationStatistics(st.totalGenerated, st.totalApplied, |st.queue|, |st.effectiveness|,
                              st.hardware, st.playstyle)
  }

  /** A freshly initialised engine, having generated nothing, does not count as
      performing well; nor does one whose queue has reached ten. */
  lemma FreshEngineNotPerformingWell(hw: HW.HardwareProfile, now: int, st: EngineState)
    requires |st.queue| >= 10
    ensures !OS.IsPerformingWell(GetStatistics(Initialize(hw, now)))
    ensures !OS.IsPerformingWell(GetStatistics(st))
  {
  }
}
