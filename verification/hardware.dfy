/** The detected machine: its performance tier by integer scoring, the settings
    recommended for that tier, capability predicates, and the equality the engine
    uses to key per-machine preferences. */
module Hardware {
  import opened Basics
  import Str = Strings

  datatype GpuType = Nvidia | Amd | Integrated | UnknownGpu | NoGpu

  datatype PerformanceTier = HighEnd | MidRange | LowEnd | Potato

  datatype HardwareProfile = HardwareProfile(
    cpuCores: Int32,
    cpuName: string,
    totalMemoryGB: Int32,
    gpuType: GpuType,
    gpuName: string,
    osName: string,
    osArch: string,
    javaVersion: string)

  /** Tiers ranked from POTATO (0) up to HIGH_END (3). */
  function Rank(t: PerformanceTier): nat
  {
    match t
    case Potato => 0
    case LowEnd => 1
    case MidRange => 2
    case HighEnd => 3
  }

  /** CPU points: 30 from 8 cores, 25 from 6, 20 from 4, 10 from 2, else 0. */
  function CpuPoints(cores: int): int
  {
    if cores >= 8 then 30 else if cores >= 6 then 25 else if cores >= 4 then 20
    else if cores >= 2 then 10 else 0
  }

  /** Memory points: 25 from 32 GB, 20 from 16, 15 from 8, 10 from 4, 5 from 2, else 0. */
  function MemoryPoints(gb: int): int
  {
    if gb >= 32 then 25 else if gb >= 16 then 20 else if gb >= 8 then 15
    else if gb >= 4 then 10 else if gb >= 2 then 5 else 0
  }

  predicate NameHasAny(name: string, patterns: seq<string>)
  {
    exists k :: 0 <= k < |patterns| && Str.Contains(Str.Lower(name), patterns[k])
  }

  predicate IsHighEndNvidia(name: string)
  {
    NameHasAny(name, ["rtx 40", "rtx 30", "gtx 1080", "gtx 1070", "quadro", "titan"])
  }

  predicate IsMidRangeNvidia(name: string)
  {
    NameHasAny(name, ["gtx 1060", "gtx 1050", "rtx 20", "gtx 16"])
  }

  predicate IsHighEndAmd(name: string)
  {
    NameHasAny(name, ["rx 6", "rx 7", "rx 580", "rx 570", "vega"])
  }

  predicate IsMidRangeAmd(name: string)
  {
    NameHasAny(name, ["rx 5", "rx 4", "rx 560", "rx 550"])
  }

  /** GPU points: dedicated cards 25/20/15 by model name, UNKNOWN 10 (assumed
      mid-range), INTEGRATED 5, NONE nothing. */
  function GpuPoints(gpu: GpuType, name: string): int
  {
    match gpu
    case Nvidia => if IsHighEndNvidia(name) then 25 else if IsMidRangeNvidia(name) then 20 else 15
    case Amd => if IsHighEndAmd(name) then 25 else if IsMidRangeAmd(name) then 20 else 15
    case Integrated => 5
    case UnknownGpu => 10
    case NoGpu => 0
  }

  function ArchPoints(arch: string): int
  {
    if Str.Contains(arch, "64") then 20 else 10
  }

  /** The hardware score behind calculatePerformanceTier: four capped parts, at most 100. */
  function Score(h: HardwareProfile): (s: int)
    ensures 10 <= s <= 100
    ensures s == CpuPoints(h.cpuCores) + MemoryPoints(h.totalMemoryGB)
                 + GpuPoints(h.gpuType, h.gpuName) + ArchPoints(h.osArch)
  {
    CpuPoints(h.cpuCores) + MemoryPoints(h.totalMemoryGB) + GpuPoints(h.gpuType, h.gpuName) + ArchPoints(h.osArch)
  }

  function TierOfScore(score: int): PerformanceTier
  {
    if score >= 75 then HighEnd else if score >= 50 then MidRange
    else if score >= 25 then LowEnd else Potato
  }

  /** calculatePerformanceTier, fixed at construction. */
  function Tier(h: HardwareProfile): (t: PerformanceTier)
    ensures t == HighEnd <==> Score(h) >= 75
    ensures t == MidRange <==> 50 <= Score(h) < 75
    ensures t == LowEnd <==> 25 <= Score(h) < 50
    ensures t == Potato <==> Score(h) < 25
  {
    TierOfScore(Score(h))
  }

  lemma TierOfScoreMonotone(a: int, b: int)
    requires a <= b
    ensures Rank(TierOfScore(a)) <= Rank(TierOfScore(b))
  {
  }

  /** With everything else equal, more cores or more memory never lower the tier. */
  lemma TierMonotone(h: HardwareProfile, cores: Int32, memory: Int32)
    requires h.cpuCores <= cores && h.totalMemoryGB <= memory
    ensures Rank(Tier(h)) <= Rank(Tier(h.(cpuCores := cores, totalMemoryGB := memory)))
  {
    var h' := h.(cpuCores := cores, totalMemoryGB := memory);
    assert CpuPoints(h.cpuCores) <= CpuPoints(cores);
    assert MemoryPoints(h.totalMemoryGB) <= MemoryPoints(memory);
    TierOfScoreMonotone(Score(h), Score(h'));
  }

  /** canHandleHighGraphics. */
  predicate CanHandleHighGraphics(h: HardwareProfile)
  {
    Tier(h) == HighEnd || (Tier(h) == MidRange && h.totalMemoryGB >= 16)
  }

  /** shouldUseConservativeMemory. */
  predicate ShouldUseConservativeMemory(h: HardwareProfile)
  {
    h.totalMemoryGB <= 8 || Tier(h) == LowEnd
  }

  /** getRecommendedRenderDistance: 16, 12, 8 or 6 chunks from HIGH_END down to
      POTATO, so a better tier never gets a shorter distance. */
  function RecommendedRenderDistance(h: HardwareProfile): (d: int)
    ensures d in {6, 8, 12, 16}
    ensures Rank(Tier(h)) == 3 <==> d == 16
    ensures Rank(Tier(h)) == 0 <==> d == 6
  {
    match Tier(h)
    case HighEnd => 16
    case MidRange => 12
    case LowEnd => 8
    case Potato => 6
  }

  lemma RenderDistanceFollowsTier(a: HardwareProfile, b: HardwareProfile)
    requires Rank(Tier(a)) <= Rank(Tier(b))
    ensures RecommendedRenderDistance(a) <= RecommendedRenderDistance(b)
  {
  }

  /** The tier cap of getRecommendedMemoryAllocationGB: 8, 6, 4 or 2 GB. */
  function MemoryCap(t: PerformanceTier): int
  {
    match t
    case HighEnd => 8
    case MidRange => 6
    case LowEnd => 4
    case Potato => 2
  }

  /** getRecommendedMemoryAllocationGB: the tier cap, but never more than half
      the installed memory (Java integer halving). */
  function RecommendedMemoryAllocationGB(h: HardwareProfile): (gb: int)
    ensures gb <= MemoryCap(Tier(h)) && gb <= JavaDiv(h.totalMemoryGB, 2)
    ensures gb == MemoryCap(Tier(h)) || gb == JavaDiv(h.totalMemoryGB, 2)
    ensures h.totalMemoryGB >= 0 ==> 2 * gb <= h.totalMemoryGB
  {
    Min(MemoryCap(Tier(h)), JavaDiv(h.totalMemoryGB, 2))
  }

  /** supportsHardwareAcceleration. */
  predicate SupportsHardwareAcceleration(h: HardwareProfile)
  {
    h.gpuType != NoGpu && h.osArch != "x86"
  }

  /** The fields equals() and hashCode() look at. */
  datatype HardwareKey = HardwareKey(cores: int, memoryGB: int, gpu: GpuType, osName: string, osArch: string)

  function Key(h: HardwareProfile): (k: HardwareKey)
    ensures k.cores == h.cpuCores && k.memoryGB == h.totalMemoryGB && k.gpu == h.gpuType
    ensures k.osName == h.osName && k.osArch == h.osArch
  {
    HardwareKey(h.cpuCores, h.totalMemoryGB, h.gpuType, h.osName, h.osArch)
  }

  /** equals(): cores, memory, GPU type, OS name and architecture. */
  predicate SameHardware(a: HardwareProfile, b: HardwareProfile)
  {
    a.cpuCores == b.cpuCores && a.totalMemoryGB == b.totalMemoryGB && a.gpuType == b.gpuType
    && a.osName == b.osName && a.osArch == b.osArch
  }

  /** Equal profiles have equal keys (and so equal hash codes), and the CPU name,
      GPU name and Java version never affect equality. */
  lemma EqualityIsKeyEquality(a: HardwareProfile, b: HardwareProfile, cpu: string, gpu: string, java: string)
    ensures SameHardware(a, b) <==> Key(a) == Key(b)
    ensures SameHardware(a, a.(cpuName := cpu, gpuName := gpu, javaVersion := java))
  {
  }

  /** Because the GPU name is ignored by equality but counts towards the tier,
      two equal profiles can land in different tiers. */
  lemma EqualProfilesMayDifferInTier()
    ensures var a := HardwareProfile(4, "", 8, Nvidia, "rtx 3080", "Linux", "amd64", "21");
            var b := a.(gpuName := "");
            SameHardware(a, b) && Tier(a) == HighEnd && Tier(b) == MidRange
  {
    var a := HardwareProfile(4, "", 8, Nvidia, "rtx 3080", "Linux", "amd64", "21");
    var b := a.(gpuName := "");
    assert Str.Lower("rtx 3080")[0..6] == "rtx 30";
    Str.ContainsAt(Str.Lower("rtx 3080"), "rtx 30", 0);
    var highEnd := ["rtx 40", "rtx 30", "gtx 1080", "gtx 1070", "quadro", "titan"];
    assert highEnd[1] == "rtx 30";
    assert Str.Contains(Str.Lower(a.gpuName), highEnd[1]);
    assert IsHighEndNvidia(a.gpuName);
    Str.ContainsAt("amd64", "64", 3);
    assert Str.Lower("") == "";
    forall k | 0 <= k < 6 ensures !Str.Contains(Str.Lower(""), ["rtx 40", "rtx 30", "gtx 1080", "gtx 1070", "quadro", "titan"][k]) {
      Str.NotContainsLonger("", ["rtx 40", "rtx 30", "gtx 1080", "gtx 1070", "quadro", "titan"][k]);
    }
    forall k | 0 <= k < 4 ensures !Str.Contains(Str.Lower(""), ["gtx 1060", "gtx 1050", "rtx 20", "gtx 16"][k]) {
      Str.NotContainsLonger("", ["gtx 1060", "gtx 1050", "rtx 20", "gtx 16"][k]);
    }
    assert GpuPoints(Nvidia, "") == 15;
  }
}
