/** The kinds of optimisation the engine can suggest and the UI groups they fall in. */
module SuggestionTypes {

  datatype SuggestionType =
    // graphics
    | ReduceRenderDistance | OptimizeGraphicsSettings | DisableShaders | ReduceParticles
    | DisableSmoothLighting | OptimizeTexturePack | OptimizeEntityRendering
    // memory
    | AdjustMemoryAllocation | ReduceMemoryUsage | CleanupWorldData | RestartGame
    | CloseUnnecessaryApplications
    // world
    | ReduceLoadedChunks | ReduceSimulationDistance | OptimizeWorldGeneration | ReduceEntityCount
    | ImplementEntityCulling | AdjustSpawningSettings
    // system
    | OptimizeJvmFlags | UpdateJavaVersion | UpdateDrivers | EnableHardwareAcceleration
    | OptimizeCpuSettings
    // mods
    | DisableProblematicMods | UpdateMods
    // network
    | OptimizeNetworkSettings | ReduceNetworkUsage | CheckInternetConnection | ChangeServer
    // general
    | ReportBug | GeneralPerformanceTips

  datatype SuggestionCategory = Graphics | Memory | World | Hardware | Network | Mods | General
}

/** Case-sensitive and ASCII-lower-cased substring tests, as `String.contains`
    and `String.toLowerCase` are used on names and versions. */
module Strings {

  /** `toLowerCase` restricted to ASCII letters. */
  function LowerChar(c: char): char
  {
    if 'A' <= c <= 'Z' then (c as int - 'A' as int + 'a' as int) as char else c
  }

  function Lower(s: string): (r: string)
    ensures |r| == |s|
    ensures forall i :: 0 <= i < |s| ==> r[i] == LowerChar(s[i])
  {
    seq(|s|, i requires 0 <= i < |s| => LowerChar(s[i]))
  }

  predicate StartsWith(s: string, prefix: string)
  {
    |prefix| <= |s| && s[..|prefix|] == prefix
  }

  /** `s.contains(sub)`: `sub` occurs at some position of `s`. */
  predicate Contains(s: string, sub: string)
    decreases |s|
  {
    StartsWith(s, sub) || (|s| > 0 && Contains(s[1..], sub))
  }

  /** A witness position makes `Contains` hold. */
  lemma {:induction false} ContainsAt(s: string, sub: string, i: nat)
    requires i + |sub| <= |s| && s[i..i + |sub|] == sub
    ensures Contains(s, sub)
    decreases i
  {
    if i > 0 {
      assert s[1..][i - 1..i - 1 + |sub|] == sub;
      ContainsAt(s[1..], sub, i - 1);
    }
  }

  /** A non-empty pattern never occurs in a shorter string. */
  lemma {:induction false} NotContainsLonger(s: string, sub: string)
    requires |s| < |sub|
    ensures !Contains(s, sub)
    decreases |s|
  {
    if |s| > 0 {
      NotContainsLonger(s[1..], sub);
    }
  }

  /** A pattern whose first two characters never stand side by side in `s`
      does not occur in `s`. */
  lemma {:induction false} NoAdjacentPair(s: string, sub: string)
    requires |sub| >= 2
    requires forall i :: 0 <= i < |s| - 1 ==> s[i] != sub[0] || s[i + 1] != sub[1]
    ensures !Contains(s, sub)
    decreases |s|
  {
    if |s| > 0 {
      if |sub| <= |s| {
        assert s[..|sub|][0] == s[0] && s[..|sub|][1] == s[1];
      }
      var t := s[1..];
      forall i | 0 <= i < |t| - 1
        ensures t[i] != sub[0] || t[i + 1] != sub[1]
      {
        assert t[i] == s[i + 1] && t[i + 1] == s[i + 2];
      }
      NoAdjacentPair(t, sub);
    }
  }
}
