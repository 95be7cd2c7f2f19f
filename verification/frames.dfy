/** One sampled performance frame, reduced to the measurements the analyser and
    the engine read from it. The frame class itself is not part of this model:
    each statistics group becomes a record of the getters used on it, with the
    Java numeric types mapped to `int` (integral) and `real` (floating point). */
module Frames {
  import opened Basics

  /** The frame's origin: only "client or not" is ever tested. */
  datatype FrameType = Client | Server

  datatype MemoryStats = MemoryStats(
    heapUsagePercent: real,
    heapMax: int,
    nonHeapUsed: int,
    gcTime: int,
    gcCollections: int)

  datatype RenderStats = RenderStats(
    renderTimeMs: real,
    drawCalls: int,
    shaderCompileTime: real,
    overdrawFactor: real)

  datatype ChunkStats = ChunkStats(
    loadedChunks: int,
    chunkUpdates: int,
    chunkLoadTime: real,
    renderDistance: Int32)

  datatype EntityStats = EntityStats(
    totalEntities: int,
    entityCount: int,
    renderedEntities: int,
    entityTickTime: real,
    tileEntityCount: int,
    tileEntityTickTime: real)

  datatype NetworkStats = NetworkStats(
    latencyMs: real,
    packetLoss: real,
    bytesPerSecond: int)

  datatype WorldStats = WorldStats(
    tickTimeMs: real,
    averageTickTime: real)

  datatype PerformanceFrame = PerformanceFrame(
    timestamp: int,
    frameType: FrameType,
    fps: Int32,
    memory: MemoryStats,
    render: RenderStats,
    chunks: ChunkStats,
    entities: EntityStats,
    network: NetworkStats,
    world: WorldStats)

  /** `1000.0 / Math.max(1, fps)`: the frame time in milliseconds the fps implies,
      with fps below 1 read as 1. */
  function FrameTimeMs(f: PerformanceFrame): (ms: real)
    ensures 0.0 < ms <= 1000.0
    ensures f.fps >= 1 ==> ms * f.fps as real == 1000.0
    ensures f.fps <= 1 ==> ms == 1000.0
  {
    1000.0 / Max(1, f.fps) as real
  }
}
