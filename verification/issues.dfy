/** How serious a detected performance issue is. */
module Severity {

  datatype IssueSeverity = Low | Medium | High | Critical

  /** Declaration order: LOW, MEDIUM, HIGH, CRITICAL. */
  function Ordinal(s: IssueSeverity): (o: nat)
    ensures o < 4
  {
    match s
    case Low => 0
    case Medium => 1
    case High => 2
    case Critical => 3
  }

  /** getWeight: LOW 1, MEDIUM 2, HIGH 3, CRITICAL 4 -- one more than the ordinal,
      so comparing weights and comparing ordinals agree. */
  function Weight(s: IssueSeverity): (w: int)
    ensures w == Ordinal(s) + 1
    ensures 1 <= w <= 4
  {
    match s
    case Low => 1
    case Medium => 2
    case High => 3
    case Critical => 4
  }

  /** The severity ordering is total and weights are strictly increasing along it. */
  lemma WeightOrder(a: IssueSeverity, b: IssueSeverity)
    ensures Ordinal(a) < Ordinal(b) <==> Weight(a) < Weight(b)
    ensures Ordinal(a) == Ordinal(b) <==> a == b
  {
  }
}

/** The subsystem a performance issue belongs to. */
module Category {

  datatype IssueCategory = Rendering | Memory | World | Network | System

  /** getWeight: RENDERING 4, MEMORY 3, WORLD 2, NETWORK 1, SYSTEM 2. */
  function Weight(c: IssueCategory): (w: int)
    ensures 1 <= w <= 4
    ensures w == 4 <==> c == Rendering
    ensures w == 3 <==> c == Memory
    ensures w == 1 <==> c == Network
    ensures w == 2 <==> (c == World || c == System)
  {
    match c
    case Rendering => 4
    case Memory => 3
    case World => 2
    case Network => 1
    case System => 2
  }
}

/** The 24 performance issues the analyzer can report, each with a fixed severity
    and category, and the queries over the whole table. */
module Issues {
  import Sev = Severity
  import Cat = Category
  import Seqs = Sequences

  datatype PerformanceIssue =
    | LowFps | CriticalFps | FpsInstability | FrameTimeSpikes
    | HighMemoryUsage | CriticalMemoryUsage | MemoryLeak | GcPressure | OffHeapMemoryIssue
    | RenderLag | GpuBottleneck | ShaderPerformance | ExcessiveDrawCalls
    | ExcessiveChunks | ChunkUpdateLag | ExcessiveEntities | EntityLag | TileEntityLag
    | NetworkLag | PacketLoss | NetworkBandwidth
    | HighCpuUsage | DiskIoBottleneck | ThreadContention

  /** values(): every issue, in declaration order. */
  const AllIssues: seq<PerformanceIssue> := [
    LowFps, CriticalFps, FpsInstability, FrameTimeSpikes,
    HighMemoryUsage, CriticalMemoryUsage, MemoryLeak, GcPressure, OffHeapMemoryIssue,
    RenderLag, GpuBottleneck, ShaderPerformance, ExcessiveDrawCalls,
    ExcessiveChunks, ChunkUpdateLag, ExcessiveEntities, EntityLag, TileEntityLag,
    NetworkLag, PacketLoss, NetworkBandwidth,
    HighCpuUsage, DiskIoBottleneck, ThreadContention]

  /** Position in declaration order; `AllIssues` lists each issue at its ordinal. */
  function Ordinal(i: PerformanceIssue): (o: nat)
    ensures o < |AllIssues| && AllIssues[o] == i
  {
    match i
    case LowFps => 0
    case CriticalFps => 1
    case FpsInstability => 2
    case FrameTimeSpikes => 3
    case HighMemoryUsage => 4
    case CriticalMemoryUsage => 5
    case MemoryLeak => 6
    case GcPressure => 7
    case OffHeapMemoryIssue => 8
    case RenderLag => 9
    case GpuBottleneck => 10
    case ShaderPerformance => 11
    case ExcessiveDrawCalls => 12
    case ExcessiveChunks => 13
    case ChunkUpdateLag => 14
    case ExcessiveEntities => 15
    case EntityLag => 16
    case TileEntityLag => 17
    case NetworkLag => 18
    case PacketLoss => 19
    case NetworkBandwidth => 20
    case HighCpuUsage => 21
    case DiskIoBottleneck => 22
    case ThreadContention => 23
  }

  function SeverityOf(i: PerformanceIssue): Sev.IssueSeverity
  {
    match i
    case LowFps => Sev.Medium
    case CriticalFps => Sev.Critical
    case FpsInstability => Sev.Medium
    case FrameTimeSpikes => Sev.High
    case HighMemoryUsage => Sev.Medium
    case CriticalMemoryUsage => Sev.Critical
    case MemoryLeak => Sev.High
    case GcPressure => Sev.Medium
    case OffHeapMemoryIssue => Sev.Medium
    case RenderLag => Sev.Medium
    case GpuBottleneck => Sev.High
    case ShaderPerformance => Sev.Medium
    case ExcessiveDrawCalls => Sev.Medium
    case ExcessiveChunks => Sev.Medium
    case ChunkUpdateLag => Sev.Medium
    case ExcessiveEntities => Sev.Medium
    case EntityLag => Sev.Medium
    case TileEntityLag => Sev.Medium
    case NetworkLag => Sev.Low
    case PacketLoss => Sev.Medium
    case NetworkBandwidth => Sev.Low
    case HighCpuUsage => Sev.Medium
    case DiskIoBottleneck => Sev.Medium
    case ThreadContention => Sev.High
  }

  function CategoryOf(i: PerformanceIssue): Cat.IssueCategory
  {
    match i
    case LowFps | CriticalFps | FpsInstability | FrameTimeSpikes => Cat.Rendering
    case HighMemoryUsage | CriticalMemoryUsage | MemoryLeak | GcPressure | OffHeapMemoryIssue => Cat.Memory
    case RenderLag | GpuBottleneck | ShaderPerformance | ExcessiveDrawCalls => Cat.Rendering
    case ExcessiveChunks | ChunkUpdateLag | ExcessiveEntities | EntityLag | TileEntityLag => Cat.World
    case NetworkLag | PacketLoss | NetworkBandwidth => Cat.Network
    case HighCpuUsage | DiskIoBottleneck | ThreadContention => Cat.System
  }

  /** getPriorityScore: the tens digit is the severity weight and the units digit the
      category weight, so the score lies in 11..44 and ranks by severity first. */
  function PriorityScore(i: PerformanceIssue): (p: int)
    ensures 11 <= p <= 44
    ensures p / 10 == Sev.Weight(SeverityOf(i))
    ensures p % 10 == Cat.Weight(CategoryOf(i))
  {
    Sev.Weight(SeverityOf(i)) * 10 + Cat.Weight(CategoryOf(i))
  }

  /** A more severe issue always has a strictly higher priority score, whatever the categories. */
  lemma PriorityRanksSeverityFirst(a: PerformanceIssue, b: PerformanceIssue)
    requires Sev.Ordinal(SeverityOf(a)) > Sev.Ordinal(SeverityOf(b))
    ensures PriorityScore(a) > PriorityScore(b)
  {
  }

  /** isCritical: holds exactly for CRITICAL_FPS and CRITICAL_MEMORY_USAGE. */
  function IsCritical(i: PerformanceIssue): (r: bool)
    ensures r <==> (i == CriticalFps || i == CriticalMemoryUsage)
  {
    SeverityOf(i) == Sev.Critical
  }

  /** Issues listed in strictly increasing declaration order (hence without repeats). */
  predicate InDeclarationOrder(s: seq<PerformanceIssue>)
  {
    Seqs.Increasing(s, OrdinalKey)
  }

  function OrdinalKey(i: PerformanceIssue): int
  {
    Ordinal(i)
  }

  lemma OrdinalInjective()
    ensures forall x, y :: OrdinalKey(x) == OrdinalKey(y) ==> x == y
  {
    forall x, y | OrdinalKey(x) == OrdinalKey(y) ensures x == y {
      assert AllIssues[Ordinal(x)] == x && AllIssues[Ordinal(y)] == y;
    }
  }

  /** Every issue appears in `AllIssues`. */
  lemma EveryIssueListed(i: PerformanceIssue)
    ensures i in AllIssues
  {
    assert AllIssues[Ordinal(i)] == i;
  }

  lemma AllIssuesInOrder()
    ensures InDeclarationOrder(AllIssues)
  {
    forall j, k | 0 <= j < k < |AllIssues| ensures OrdinalKey(AllIssues[j]) < OrdinalKey(AllIssues[k]) {
      AllIssuesAtOrdinal(j);
      AllIssuesAtOrdinal(k);
    }
  }

  lemma AllIssuesAtOrdinal(j: nat)
    requires j < |AllIssues|
    ensures Ordinal(AllIssues[j]) == j
  {
  }

  /** The issues satisfying `p`, in declaration order. */
  function IssuesWhere(p: PerformanceIssue -> bool): (r: seq<PerformanceIssue>)
    ensures forall i :: i in r <==> p(i)
    ensures InDeclarationOrder(r)
  {
    AllIssuesInOrder();
    Seqs.FilterKeepsOrder(AllIssues, p, OrdinalKey);
    forall i ensures i in AllIssues { EveryIssueListed(i); }
    Seqs.Filter(AllIssues, p)
  }

  /** getIssuesInCategory: exactly the issues of category `c`, in declaration order. */
  function IssuesInCategory(c: Cat.IssueCategory): (r: seq<PerformanceIssue>)
    ensures forall i :: i in r <==> CategoryOf(i) == c
    ensures InDeclarationOrder(r)
  {
    IssuesWhere(i => CategoryOf(i) == c)
  }

  /** The five category lists partition the issue table: each issue is in exactly one. */
  lemma CategoriesPartitionIssues(i: PerformanceIssue, c: Cat.IssueCategory, d: Cat.IssueCategory)
    ensures i in IssuesInCategory(CategoryOf(i))
    ensures i in IssuesInCategory(c) && i in IssuesInCategory(d) ==> c == d
  {
  }

  /** getIssuesWithMinSeverity: exactly the issues at least as severe as `s`, in declaration order. */
  function IssuesWithMinSeverity(s: Sev.IssueSeverity): (r: seq<PerformanceIssue>)
    ensures forall i :: i in r <==> Sev.Ordinal(SeverityOf(i)) >= Sev.Ordinal(s)
    ensures InDeclarationOrder(r)
  {
    IssuesWhere(i => Sev.Ordinal(SeverityOf(i)) >= Sev.Ordinal(s))
  }

  const HighOrAboveList: seq<PerformanceIssue> :=
    [CriticalFps, FrameTimeSpikes, CriticalMemoryUsage, MemoryLeak, GpuBottleneck, ThreadContention]

  lemma HighOrAbove(x: PerformanceIssue)
    ensures Sev.Ordinal(SeverityOf(x)) >= Sev.Ordinal(Sev.High) <==> x in HighOrAboveList
  {
  }

  lemma HighOrAboveListOrdered()
    ensures InDeclarationOrder(HighOrAboveList)
  {
    var e := HighOrAboveList;
    assert OrdinalKey(e[0]) == 1 && OrdinalKey(e[1]) == 3 && OrdinalKey(e[2]) == 5;
    assert OrdinalKey(e[3]) == 6 && OrdinalKey(e[4]) == 10 && OrdinalKey(e[5]) == 23;
  }

  /** The issues of severity HIGH or above, the ones that request suggestions:
      CRITICAL_FPS, FRAME_TIME_SPIKES, CRITICAL_MEMORY_USAGE, MEMORY_LEAK,
      GPU_BOTTLENECK and THREAD_CONTENTION. */
  lemma HighOrAboveIssues()
    ensures IssuesWithMinSeverity(Sev.High) == HighOrAboveList
  {
    var r := IssuesWithMinSeverity(Sev.High);
    forall x ensures x in r <==> x in HighOrAboveList {
      HighOrAbove(x);
    }
    HighOrAboveListOrdered();
    OrdinalInjective();
    Seqs.OrderedWithSameMembersAreEqual(r, HighOrAboveList, OrdinalKey);
  }
}

/** The game situation the analyzer believes it is in. */
module Context {

  datatype AnalysisContext =
    | Unknown | NormalGameplay | HeavyWorld | EntityHeavy | RenderIntensive | ServerProcessing | Multiplayer

  /** getThresholdMultiplier: the constructor-supplied leniency factor, between 1.0
      (UNKNOWN and NORMAL_GAMEPLAY exactly) and 1.5 (HEAVY_WORLD, the only maximum). */
  function ThresholdMultiplier(c: AnalysisContext): (m: real)
    ensures 1.0 <= m <= 1.5
    ensures m == 1.0 <==> (c == Unknown || c == NormalGameplay)
    ensures m == 1.5 <==> c == HeavyWorld
  {
    match c
    case Unknown => 1.0
    case NormalGameplay => 1.0
    case HeavyWorld => 1.5
    case EntityHeavy => 1.3
    case RenderIntensive => 1.4
    case ServerProcessing => 1.2
    case Multiplayer => 1.1
  }
}
