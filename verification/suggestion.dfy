/** One optimisation suggestion: the immutable advice the builder assembles and
    the mutable application record (applied flag, feedback) kept with it.
    Creation and application times are epoch milliseconds passed in. */
module Suggestion {
  import opened Basics
  import opened SuggestionTypes
  import Issues
  import Context

  /** The values a related setting can hold (the program stores `Object`s). */
  datatype SettingValue = IntSetting(i: int) | RealSetting(r: real) | TextSetting(t: string) | BoolSetting(b: bool)

  /** The advice texts that interpolate nothing, by topic. */
  datatype Advice = GraphicsAdvice | CleanupAdvice | DriverAdvice | ModAdvice | JvmFlagAdvice | GenericAdvice

  /** The advice text. Each suggestion type has a fixed template; the model keeps
      the values interpolated into it (or the topic when nothing is) and leaves
      the template wording out. */
  datatype Description =
    | RenderDistanceText(renderDistance: int)
    | MemoryAllocationText(heapUsagePercent: real, lowGB: int, highGB: int)
    | RestartText(heapUsagePercent: real)
    | FixedText(advice: Advice)

  /** The numbered instruction lists, by topic, and the empty list a builder
      starts with; the wording of the steps is left out, their number is kept
      (`StepCount`). */
  datatype Instructions =
    | NoSteps | RenderDistanceSteps | MemoryAllocationSteps | GraphicsSteps | CleanupSteps
    | RestartSteps | JvmFlagSteps | GenericSteps

  /** How many numbered lines each list has (the flag list of the JVM
      instructions counts as three lines). */
  function StepCount(i: Instructions): nat
  {
    match i
    case NoSteps => 0
    case RenderDistanceSteps => 5
    case MemoryAllocationSteps => 8
    case GraphicsSteps => 6
    case CleanupSteps => 5
    case RestartSteps => 5
    case JvmFlagSteps => 8
    case GenericSteps => 3
  }

  datatype OptimizationSuggestion = OptimizationSuggestion(
    suggestionType: SuggestionType,
    title: string,
    description: Description,
    category: SuggestionCategory,
    priority: int,
    difficulty: int,
    estimatedImpact: int,
    estimatedTimeMinutes: int,
    createdAt: int,
    relatedIssue: Option<Issues.PerformanceIssue>,
    context: Option<Context.AnalysisContext>,
    implementationSteps: Instructions,
    warnings: seq<string>,
    requirements: seq<string>,
    relatedSettings: map<string, SettingValue>,
    canAutoImplement: bool,
    hasAutoAction: bool,
    applied: bool,
    appliedAt: Option<int>,
    effectivenessRating: int,
    userFeedback: Option<string>)

  /** The builder's state; the four required parts start unset. */
  datatype Builder = Builder(
    suggestionType: Option<SuggestionType>,
    title: Option<string>,
    description: Option<Description>,
    category: Option<SuggestionCategory>,
    priority: int,
    difficulty: int,
    estimatedImpact: int,
    estimatedTimeMinutes: int,
    relatedIssue: Option<Issues.PerformanceIssue>,
    context: Option<Context.AnalysisContext>,
    implementationSteps: Instructions,
    warnings: seq<string>,
    requirements: seq<string>,
    relatedSettings: map<string, SettingValue>,
    canAutoImplement: bool,
    hasAutoAction: bool)

  /** A new builder: priority 5, difficulty 3, impact 3, ten minutes, no
      auto-implementation, nothing else set. */
  const NewBuilder: Builder :=
    Builder(None, None, None, None, 5, 3, 3, 10, None, None, NoSteps, [], [], map[], false, false)

  /** build(): rejected unless type, title, description and category were all
      given; otherwise a suggestion carrying exactly the builder's values,
      created at `now`, not yet applied and not yet rated. */
  function Build(b: Builder, now: int): (r: Result<OptimizationSuggestion, string>)
    ensures r.Ok? <==> b.suggestionType.Some? && b.title.Some? && b.description.Some? && b.category.Some?
    ensures r.Ok? ==> Describes(b, r.value) && !r.value.applied && r.value.appliedAt.None?
                      && r.value.effectivenessRating == 0 && r.value.userFeedback.None?
                      && r.value.createdAt == now
  {
    if b.suggestionType.None? then Err("Suggestion type is required")
    else if b.title.None? then Err("Title is required")
    else if b.description.None? then Err("Description is required")
    else if b.category.None? then Err("Category is required")
    else Ok(OptimizationSuggestion(
      b.suggestionType.value, b.title.value, b.description.value, b.category.value,
      b.priority, b.difficulty, b.estimatedImpact, b.estimatedTimeMinutes, now,
      b.relatedIssue, b.context, b.implementationSteps, b.warnings, b.requirements,
      b.relatedSettings, b.canAutoImplement, b.hasAutoAction, false, None, 0, None))
  }

  /** The suggestion holds the values the builder was given. */
  predicate Describes(b: Builder, s: OptimizationSuggestion)
  {
    && b.suggestionType == Some(s.suggestionType) && b.title == Some(s.title)
    && b.description == Some(s.description) && b.category == Some(s.category)
    && s.priority == b.priority && s.difficulty == b.difficulty
    && s.estimatedImpact == b.estimatedImpact && s.estimatedTimeMinutes == b.estimatedTimeMinutes
    && s.relatedIssue == b.relatedIssue && s.context == b.context
    && s.implementationSteps == b.implementationSteps && s.warnings == b.warnings
    && s.requirements == b.requirements && s.relatedSettings == b.relatedSettings
    && s.canAutoImplement == b.canAutoImplement && s.hasAutoAction == b.hasAutoAction
  }

  /** A builder given only the four required parts builds a suggestion with the
      default priority, difficulty, impact and time. */
  lemma DefaultsReachTheSuggestion(t: SuggestionType, title: string, description: Description,
                                   c: SuggestionCategory, now: int)
    ensures var r := Build(NewBuilder.(suggestionType := Some(t), title := Some(title),
                                       description := Some(description), category := Some(c)), now);
            r.Ok? && r.value.priority == 5 && r.value.difficulty == 3 && r.value.estimatedImpact == 3
            && r.value.estimatedTimeMinutes == 10 && !r.value.canAutoImplement
  {
  }

  /** markAsApplied. */
  function MarkAsApplied(s: OptimizationSuggestion, now: int): (r: OptimizationSuggestion)
    ensures r.applied && r.appliedAt == Some(now)
    ensures r.(applied := s.applied, appliedAt := s.appliedAt) == s
  {
    s.(applied := true, appliedAt := Some(now))
  }

  /** recordFeedback: the rating is clamped into 1..5 and the feedback stored. */
  function RecordFeedback(s: OptimizationSuggestion, rating: int, feedback: string): (r: OptimizationSuggestion)
    ensures 1 <= r.effectivenessRating <= 5
    ensures 1 <= rating <= 5 ==> r.effectivenessRating == rating
    ensures rating < 1 ==> r.effectivenessRating == 1
    ensures rating > 5 ==> r.effectivenessRating == 5
    ensures r.userFeedback == Some(feedback)
    ensures r.(effectivenessRating := s.effectivenessRating, userFeedback := s.userFeedback) == s
  {
    s.(effectivenessRating := Max(1, Min(5, rating)), userFeedback := Some(feedback))
  }

  /** Feedback replaces earlier feedback: only the last rating and text count. */
  lemma LastFeedbackWins(s: OptimizationSuggestion, r1: int, f1: string, r2: int, f2: string)
    ensures RecordFeedback(RecordFeedback(s, r1, f1), r2, f2) == RecordFeedback(s, r2, f2)
  {
  }

  /** executeAutoImplementation: nothing happens unless the suggestion is
      auto-implementable and has an action; an action that throws reports
      false and leaves the suggestion as it was; otherwise it is marked applied. */
  function ExecuteAutoImplementation(s: OptimizationSuggestion, actionThrows: bool, now: int)
    : (r: (bool, OptimizationSuggestion))
    ensures r.0 <==> s.canAutoImplement && s.hasAutoAction && !actionThrows
    ensures r.0 ==> r.1 == MarkAsApplied(s, now)
    ensures !r.0 ==> r.1 == s
  {
    if !s.canAutoImplement || !s.hasAutoAction then (false, s)
    else if actionThrows then (false, s)
    else (true, MarkAsApplied(s, now))
  }

  /** getDifficultyDescription. */
  function DifficultyDescription(difficulty: int): (d: string)
    ensures d == "Unknown" <==> !(1 <= difficulty <= 5)
  {
    match difficulty
    case 1 => "Very Easy (1-2 minutes)"
    case 2 => "Easy (2-5 minutes)"
    case 3 => "Medium (5-15 minutes)"
    case 4 => "Hard (15-30 minutes)"
    case 5 => "Very Hard (30+ minutes)"
    case _ => "Unknown"
  }

  /** getImpactDescription. */
  function ImpactDescription(impact: int): (d: string)
    ensures d == "Unknown Impact" <==> !(1 <= impact <= 5)
  {
    match impact
    case 1 => "Low Impact"
    case 2 => "Minor Impact"
    case 3 => "Moderate Impact"
    case 4 => "High Impact"
    case 5 => "Very High Impact"
    case _ => "Unknown Impact"
  }

  /** Each level on the 1..5 scales has its own description, so the text
      identifies the level. */
  lemma DescriptionsIdentifyLevels(a: int, b: int)
    requires 1 <= a <= 5 && 1 <= b <= 5
    ensures DifficultyDescription(a) == DifficultyDescription(b) <==> a == b
    ensures ImpactDescription(a) == ImpactDescription(b) <==> a == b
  {
    if a != b {
      DescriptionsDiffer(a, b);
    }
  }

  lemma DescriptionsDiffer(a: int, b: int)
    requires 1 <= a <= 5 && 1 <= b <= 5 && a != b
    ensures DifficultyDescription(a) != DifficultyDescription(b)
    ensures ImpactDescription(a) != ImpactDescription(b)
  {
    // the texts differ in length, except the two "Very" levels, which differ at position 5
    assert DifficultyDescription(1)[5] != DifficultyDescription(5)[5];
  }

  const MillisPerMinute: int := 60_000

  /** getAgeMinutes: whole minutes since creation. */
  function AgeMinutes(s: OptimizationSuggestion, now: int): int
  {
    JavaDiv(now - s.createdAt, MillisPerMinute)
  }

  /** isExpired: older than 24 hours (1440 minutes). */
  predicate IsExpired(s: OptimizationSuggestion, now: int)
  {
    AgeMinutes(s, now) > 1440
  }

  /** Since ages are counted in whole minutes, a suggestion expires at the start
      of its 1441st minute, and not before. */
  lemma ExpiryBoundary(s: OptimizationSuggestion, now: int)
    ensures IsExpired(s, now) <==> now - s.createdAt >= 1441 * MillisPerMinute
  {
  }

  /** equals(): type and related issue only. */
  predicate SameSuggestion(a: OptimizationSuggestion, b: OptimizationSuggestion)
  {
    a.suggestionType == b.suggestionType && a.relatedIssue == b.relatedIssue
  }

  /** What hashCode() is computed from. */
  function HashKey(s: OptimizationSuggestion): (k: (SuggestionType, Option<Issues.PerformanceIssue>))
    ensures k.0 == s.suggestionType && k.1 == s.relatedIssue
  {
    (s.suggestionType, s.relatedIssue)
  }

  /** Equality and hashing agree, and neither sees the advice text, the numbers
      or the application record. */
  lemma EqualityMatchesHash(a: OptimizationSuggestion, b: OptimizationSuggestion, now: int, rating: int)
    ensures SameSuggestion(a, b) <==> HashKey(a) == HashKey(b)
    ensures SameSuggestion(a, MarkAsApplied(RecordFeedback(a, rating, ""), now))
    ensures SameSuggestion(a, a.(title := b.title, priority := b.priority, createdAt := b.createdAt))
  {
  }
}
