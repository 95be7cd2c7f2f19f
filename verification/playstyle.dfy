/** What the profiler learns about a player across sessions: five activity
    metrics kept as exponential moving averages, graphics and render-distance
    preferences, and running preference scores for suggestion categories and
    types. The clock is a parameter. */
module Playstyle {
  import opened Basics
  import opened SuggestionTypes

  datatype GraphicsPreference = Performance | Balanced | Quality

  datatype PlaystyleType = Builder | Explorer | Survivor | Engineer | Social | Creative | Adventurer | Casual

  datatype SuggestionResponse = AppliedHelpful | AppliedNeutral | Dismissed | MarkedUnhelpful

  /** The five PlaystyleMetric values. */
  datatype Metrics = Metrics(building: real, exploration: real, combat: real, redstone: real, social: real)

  datatype SessionData = SessionData(
    durationMinutes: Int32,
    blockInteractions: Int32,
    chunksVisited: Int32,
    mobInteractions: Int32,
    redstoneComponents: Int32,
    isMultiplayer: bool,
    averageFps: real,
    graphicsSettings: string,
    renderDistance: Int32)

  datatype PlaystyleProfile = PlaystyleProfile(
    totalPlayTime: int,
    sessionCount: int,
    metrics: Metrics,
    categoryPreferences: map<SuggestionCategory, int>,
    suggestionPreferences: map<SuggestionType, int>,
    preferredVisualQuality: bool,
    preferredPerformance: bool,
    preferredRenderDistance: int,
    graphicsPreference: GraphicsPreference,
    lastUpdated: int)

  const AllCategories: set<SuggestionCategory> := {Graphics, Memory, World, Hardware, Network, Mods, General}

  predicate InUnit(x: real) { 0.0 <= x <= 1.0 }

  predicate MetricsInUnit(m: Metrics)
  {
    InUnit(m.building) && InUnit(m.exploration) && InUnit(m.combat) && InUnit(m.redstone) && InUnit(m.social)
  }

  /** What every reachable profile satisfies: metrics stay in [0, 1], every
      category has a score, and the two preference flags, which start true and
      are only ever set to true, are still true. */
  predicate Valid(p: PlaystyleProfile)
  {
    && MetricsInUnit(p.metrics)
    && p.categoryPreferences.Keys == AllCategories
    && p.preferredVisualQuality && p.preferredPerformance
  }

  /** A new profile: no play time, every metric and category score 0, BALANCED
      graphics, render distance 12. */
  function New(now: int): (p: PlaystyleProfile)
    ensures Valid(p)
    ensures p.sessionCount == 0 && p.totalPlayTime == 0
    ensures forall c :: CategoryPreference(p, c) == 0
    ensures forall t :: SuggestionPreference(p, t) == 0
  {
    PlaystyleProfile(0, 0, Metrics(0.0, 0.0, 0.0, 0.0, 0.0),
                     map c | c in AllCategories :: 0, map[],
                     true, true, 12, Balanced, now)
  }

  /** getCategoryPreference. */
  function CategoryPreference(p: PlaystyleProfile, c: SuggestionCategory): int
  {
    if c in p.categoryPreferences then p.categoryPreferences[c] else 0
  }

  /** getSuggestionPreference. */
  function SuggestionPreference(p: PlaystyleProfile, t: SuggestionType): int
  {
    if t in p.suggestionPreferences then p.suggestionPreferences[t] else 0
  }

  /** The activity counts of a real session are never negative. */
  predicate NonNegativeCounts(s: SessionData)
  {
    s.blockInteractions >= 0 && s.chunksVisited >= 0 && s.mobInteractions >= 0 && s.redstoneComponents >= 0
  }

  /** A session count scaled against its saturation point and capped at 1. */
  function Intensity(count: int, saturation: real): (x: real)
    requires saturation > 0.0
    ensures x <= 1.0
    ensures count >= 0 ==> InUnit(x)
    ensures x == 1.0 <==> count as real >= saturation
  {
    MinR(1.0, count as real / saturation)
  }

  /** updateMetric: exponential moving average with learning rate 0.1. */
  function Ema(current: real, observed: real): real
  {
    0.1 * observed + 0.9 * current
  }

  /** The average always moves from the current value a tenth of the way towards
      the observation, so it stays between the two. */
  lemma EmaBetween(current: real, observed: real)
    ensures MinR(current, observed) <= Ema(current, observed) <= MaxR(current, observed)
    ensures Ema(current, observed) - current == (observed - current) / 10.0
    ensures Ema(current, current) == current
  {
  }

  /** updateMetrics: each metric moves towards this session's intensity
      (1000 block interactions, 100 chunks, 50 mob interactions and 20 redstone
      components saturate; multiplayer counts as full social activity). */
  function UpdateMetrics(m: Metrics, s: SessionData): (r: Metrics)
    ensures MetricsInUnit(m) && NonNegativeCounts(s) ==> MetricsInUnit(r)
    ensures InUnit(m.social) && s.isMultiplayer ==> r.social >= m.social
    ensures InUnit(m.social) && !s.isMultiplayer ==> r.social <= m.social
  {
    var building := Intensity(s.blockInteractions, 1000.0);
    var exploration := Intensity(s.chunksVisited, 100.0);
    var combat := Intensity(s.mobInteractions, 50.0);
    var redstone := Intensity(s.redstoneComponents, 20.0);
    var social := if s.isMultiplayer then 1.0 else 0.0;
    EmaBetween(m.building, building);
    EmaBetween(m.exploration, exploration);
    EmaBetween(m.combat, combat);
    EmaBetween(m.redstone, redstone);
    EmaBetween(m.social, social);
    Metrics(Ema(m.building, building), Ema(m.exploration, exploration), Ema(m.combat, combat),
            Ema(m.redstone, redstone), Ema(m.social, social))
  }

  /** learnFromBehavior: above 60 FPS on "fancy" settings the player is taken to
      favour QUALITY, below 30 FPS PERFORMANCE, otherwise the preference stays;
      the render distance used becomes the preferred one. */
  function LearnFromBehavior(p: PlaystyleProfile, s: SessionData): (r: PlaystyleProfile)
    ensures r.preferredRenderDistance == s.renderDistance
    ensures s.averageFps > 60.0 && s.graphicsSettings == "fancy" ==> r.graphicsPreference == Quality
    ensures !(s.averageFps > 60.0 && s.graphicsSettings == "fancy") && s.averageFps < 30.0 ==>
              r.graphicsPreference == Performance
    ensures !(s.averageFps > 60.0 && s.graphicsSettings == "fancy") && s.averageFps >= 30.0 ==>
              r.graphicsPreference == p.graphicsPreference
    ensures Valid(p) ==> Valid(r)
    ensures Valid(p) ==> r == p.(graphicsPreference := r.graphicsPreference, preferredRenderDistance := r.preferredRenderDistance)
  {
    var learned :=
      if s.averageFps > 60.0 && s.graphicsSettings == "fancy" then
        p.(graphicsPreference := Quality, preferredVisualQuality := true)
      else if s.averageFps < 30.0 then
        p.(graphicsPreference := Performance, preferredPerformance := true)
      else p;
    if s.renderDistance != learned.preferredRenderDistance
    then learned.(preferredRenderDistance := s.renderDistance)
    else learned
  }

  /** recordSession: one more session, its minutes added to the play time, the
      metrics moved towards it and the preferences learned from it. */
  function RecordSession(p: PlaystyleProfile, s: SessionData, now: int): (r: PlaystyleProfile)
    ensures r.sessionCount == p.sessionCount + 1
    ensures r.totalPlayTime == p.totalPlayTime + s.durationMinutes
    ensures r.preferredRenderDistance == s.renderDistance
    ensures r.categoryPreferences == p.categoryPreferences && r.suggestionPreferences == p.suggestionPreferences
    ensures r.lastUpdated == now
    ensures Valid(p) && NonNegativeCounts(s) ==> Valid(r)
  {
    var counted := p.(sessionCount := p.sessionCount + 1, totalPlayTime := p.totalPlayTime + s.durationMinutes);
    var measured := counted.(metrics := UpdateMetrics(p.metrics, s));
    LearnFromBehavior(measured, s).(lastUpdated := now)
  }

  /** getSuggestionCategory of this class: every type is filed under GENERAL. */
  function ResponseCategory(t: SuggestionType): (c: SuggestionCategory)
    ensures c == General
  {
    General
  }

  /** The change a response makes to its category's score. */
  function CategoryDelta(response: SuggestionResponse): int
  {
    match response
    case AppliedHelpful => 2
    case AppliedNeutral => 1
    case Dismissed => -1
    case MarkedUnhelpful => -2
  }

  /** The change a response makes to the suggestion type's own score. */
  function TypeDelta(response: SuggestionResponse): int
  {
    match response
    case AppliedHelpful => 3
    case AppliedNeutral => 1
    case Dismissed => -2
    case MarkedUnhelpful => -3
  }

  /** recordSuggestionResponse: the GENERAL category score and the type's score
      move by the response's deltas (positive for applied, negative otherwise);
      no other score changes. */
  function RecordSuggestionResponse(p: PlaystyleProfile, t: SuggestionType, response: SuggestionResponse,
                                    now: int): (r: PlaystyleProfile)
    requires Valid(p)
    ensures Valid(r)
    ensures CategoryPreference(r, General) == CategoryPreference(p, General) + CategoryDelta(response)
    ensures forall c :: c != General ==> CategoryPreference(r, c) == CategoryPreference(p, c)
    ensures SuggestionPreference(r, t) == SuggestionPreference(p, t) + TypeDelta(response)
    ensures forall u :: u != t ==> SuggestionPreference(r, u) == SuggestionPreference(p, u)
    ensures (response == AppliedHelpful || response == AppliedNeutral) <==>
              SuggestionPreference(r, t) > SuggestionPreference(p, t)
    ensures r.metrics == p.metrics && r.sessionCount == p.sessionCount
  {
    var c := ResponseCategory(t);
    p.(categoryPreferences := p.categoryPreferences[c := p.categoryPreferences[c] + CategoryDelta(response)],
       suggestionPreferences := p.suggestionPreferences[t := SuggestionPreference(p, t) + TypeDelta(response)],
       lastUpdated := now)
  }

  /** A helpful response followed by an unhelpful one leaves every score where it was. */
  lemma HelpfulThenUnhelpfulCancel(p: PlaystyleProfile, t: SuggestionType, now: int)
    requires Valid(p)
    ensures var r := RecordSuggestionResponse(RecordSuggestionResponse(p, t, AppliedHelpful, now), t, MarkedUnhelpful, now);
            (forall c :: CategoryPreference(r, c) == CategoryPreference(p, c))
            && (forall u :: SuggestionPreference(r, u) == SuggestionPreference(p, u))
  {
  }

  /** Only the GENERAL category ever accumulates a score: the others stay at
      whatever they were, 0 for a new profile. */
  lemma OnlyGeneralCategoryMoves(p: PlaystyleProfile, responses: seq<(SuggestionType, SuggestionResponse)>, now: int)
    requires Valid(p)
    ensures var r := RecordResponses(p, responses, now);
            Valid(r) && forall c :: c != General ==> CategoryPreference(r, c) == CategoryPreference(p, c)
  {
    RecordResponsesKeepsOthers(p, responses, now);
  }

  function RecordResponses(p: PlaystyleProfile, responses: seq<(SuggestionType, SuggestionResponse)>, now: int)
    : (r: PlaystyleProfile)
    requires Valid(p)
    ensures Valid(r)
    decreases |responses|
  {
    if |responses| == 0 then p
    else RecordResponses(RecordSuggestionResponse(p, responses[0].0, responses[0].1, now), responses[1..], now)
  }

  lemma {:induction false} RecordResponsesKeepsOthers(p: PlaystyleProfile, responses: seq<(SuggestionType, SuggestionResponse)>,
                                                      now: int)
    requires Valid(p)
    ensures forall c :: c != General ==> CategoryPreference(RecordResponses(p, responses, now), c) == CategoryPreference(p, c)
    decreases |responses|
  {
    if |responses| > 0 {
      var q := RecordSuggestionResponse(p, responses[0].0, responses[0].1, now);
      RecordResponsesKeepsOthers(q, responses[1..], now);
    }
  }

  /** getMetric for the five metrics. */
  function Building(p: PlaystyleProfile): real { p.metrics.building }
  function Exploration(p: PlaystyleProfile): real { p.metrics.exploration }
  function Combat(p: PlaystyleProfile): real { p.metrics.combat }
  function Redstone(p: PlaystyleProfile): real { p.metrics.redstone }
  function SocialActivity(p: PlaystyleProfile): real { p.metrics.social }

  /** prefersPerformanceOverQuality. */
  predicate PrefersPerformanceOverQuality(p: PlaystyleProfile)
  {
    p.graphicsPreference == Performance || (p.graphicsPreference == Balanced && p.preferredPerformance)
  }

  /** Because the performance flag can never become false, the answer is simply
      "unless QUALITY was learned". */
  lemma PrefersPerformanceUnlessQuality(p: PlaystyleProfile)
    requires Valid(p)
    ensures PrefersPerformanceOverQuality(p) <==> p.graphicsPreference != Quality
  {
  }

  /** The two types an activity contributes when it is strong. */
  function PairIf(strong: bool, a: SuggestionType, b: SuggestionType): (r: seq<SuggestionType>)
    ensures |r| == (if strong then 2 else 0)
    ensures forall u :: u in r <==> strong && (u == a || u == b)
  {
    if strong then [a, b] else []
  }

  /** getRecommendedSuggestionTypes: two types for each strong activity, in the
      order building, exploration, redstone, social. */
  function RecommendedSuggestionTypes(p: PlaystyleProfile): (r: seq<SuggestionType>)
    ensures |r| % 2 == 0 && |r| <= 8
    ensures forall u :: u in r <==>
              || (Building(p) > 0.7 && (u == ReduceLoadedChunks || u == OptimizeEntityRendering))
              || (Exploration(p) > 0.7 && (u == ReduceRenderDistance || u == OptimizeWorldGeneration))
              || (Redstone(p) > 0.5 && (u == OptimizeCpuSettings || u == AdjustMemoryAllocation))
              || (SocialActivity(p) > 0.5 && (u == OptimizeNetworkSettings || u == ReduceNetworkUsage))
  {
    var b := PairIf(Building(p) > 0.7, ReduceLoadedChunks, OptimizeEntityRendering);
    var e := PairIf(Exploration(p) > 0.7, ReduceRenderDistance, OptimizeWorldGeneration);
    var d := PairIf(Redstone(p) > 0.5, OptimizeCpuSettings, AdjustMemoryAllocation);
    var s := PairIf(SocialActivity(p) > 0.5, OptimizeNetworkSettings, ReduceNetworkUsage);
    assert forall u :: u in b + e + d + s <==> u in b || u in e || u in d || u in s;
    b + e + d + s
  }

  /** Building, exploration and combat are at most 0.7 and redstone at most `redstoneCap`. */
  predicate NoDominantActivity(p: PlaystyleProfile, redstoneCap: real)
  {
    Building(p) <= 0.7 && Exploration(p) <= 0.7 && Combat(p) <= 0.7 && Redstone(p) <= redstoneCap
  }

  /** getPlaystyleType: the first dominant activity (building, exploration,
      combat above 0.7; redstone above 0.6; social above 0.5), then the hybrid
      types, else CASUAL. */
  function Classify(p: PlaystyleProfile): (t: PlaystyleType)
    ensures t == Builder <==> Building(p) > 0.7
    ensures t == Explorer <==> Building(p) <= 0.7 && Exploration(p) > 0.7
    ensures t == Survivor <==> Building(p) <= 0.7 && Exploration(p) <= 0.7 && Combat(p) > 0.7
    ensures t == Engineer <==>
              Building(p) <= 0.7 && Exploration(p) <= 0.7 && Combat(p) <= 0.7 && Redstone(p) > 0.6
    ensures t == Social <==>
              NoDominantActivity(p, 0.6) && SocialActivity(p) > 0.5
    ensures t == Creative <==>
              NoDominantActivity(p, 0.6) && SocialActivity(p) <= 0.5
              && Building(p) > 0.5 && Exploration(p) > 0.5
    ensures t == Adventurer <==>
              NoDominantActivity(p, 0.6) && SocialActivity(p) <= 0.5
              && Building(p) <= 0.5 && Combat(p) > 0.5 && Exploration(p) > 0.5
    ensures t == Casual <==>
              (Building(p) <= 0.5 && Exploration(p) <= 0.7 && Combat(p) <= 0.7 && Redstone(p) <= 0.6
              && SocialActivity(p) <= 0.5 && !(Combat(p) > 0.5 && Exploration(p) > 0.5))
              || (0.5 < Building(p) <= 0.7 && Exploration(p) <= 0.5 && Combat(p) <= 0.7
                  && Redstone(p) <= 0.6 && SocialActivity(p) <= 0.5)
  {
    var building := Building(p);
    var exploration := Exploration(p);
    var combat := Combat(p);
    var redstone := Redstone(p);
    var social := SocialActivity(p);
    if building > 0.7 then Builder
    else if exploration > 0.7 then Explorer
    else if combat > 0.7 then Survivor
    else if redstone > 0.6 then Engineer
    else if social > 0.5 then Social
    else if building > 0.5 && exploration > 0.5 then Creative
    else if combat > 0.5 && exploration > 0.5 then Adventurer
    else Casual
  }

  /** The classification and the recommendations agree: builders and explorers
      are offered their activity's types, and a CASUAL player is offered
      nothing unless redstone or social activity is moderately high. */
  lemma ClassificationMatchesRecommendations(p: PlaystyleProfile)
    ensures Classify(p) == Builder ==> ReduceLoadedChunks in RecommendedSuggestionTypes(p)
    ensures Classify(p) == Explorer ==> ReduceRenderDistance in RecommendedSuggestionTypes(p)
    ensures Classify(p) == Engineer ==> OptimizeCpuSettings in RecommendedSuggestionTypes(p)
    ensures Classify(p) == Social ==> OptimizeNetworkSettings in RecommendedSuggestionTypes(p)
    ensures Classify(p) == Casual && Redstone(p) <= 0.5 ==> RecommendedSuggestionTypes(p) == []
  {
  }

  /** A new profile is CASUAL, with no recommendations and the performance bias. */
  lemma NewProfileIsCasual(now: int)
    ensures Classify(New(now)) == Casual && RecommendedSuggestionTypes(New(now)) == []
    ensures PrefersPerformanceOverQuality(New(now))
  {
  }
}
