/** Shared geometry of the voxel world: chunk dimensions, integer coordinates
    and the shape of a chunk's block grid. */
module Voxel {

  /** Horizontal size of a chunk, in blocks (chunkWidth). */
  const ChunkWidth: int := 10

  /** Vertical size of a chunk, in blocks (chunkHeight). */
  const ChunkHeight: int := 128

  /** An integer triple: a block position (Vector3Int) or an integer-valued vertex position. */
  datatype V3 = V3(x: int, y: int, z: int) {
    function Plus(o: V3): V3 { V3(x + o.x, y + o.y, z + o.z) }
    function Minus(o: V3): V3 { V3(x - o.x, y - o.y, z - o.z) }
  }

  /** A 2D integer coordinate (Vector2Int), used for chunk-grid keys. */
  datatype Vec2 = Vec2(x: int, y: int)

  /** The local block coordinates of one chunk: [0,10) x [0,128) x [0,10). */
  predicate InChunk(p: V3) {
    0 <= p.x < ChunkWidth && 0 <= p.y < ChunkHeight && 0 <= p.z < ChunkWidth
  }

  /** A dense grid with the dimensions of one chunk. */
  predicate IsChunkGrid<T>(a: array3<T>) {
    a.Length0 == ChunkWidth && a.Length1 == ChunkHeight && a.Length2 == ChunkWidth
  }
}
