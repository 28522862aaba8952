/** The world: a table from chunk-grid coordinates to chunk data, filled with a
    square of chunks at start-up, and the routing of a block edit to the chunk
    that owns the edited block. */
module World {
  import opened Voxel
  import opened Terrain

  /** The side of the square of chunks loaded at start-up. */
  const WorldChunks: int := 10

  /** One chunk's state: its chunk-grid coordinate and its block grid. */
  class ChunkData {
    var chunkPosition: Vec2
    var Blocks: array3<BlockType>

    constructor (position: Vec2, blocks: array3<BlockType>)
      ensures chunkPosition == position && Blocks == blocks
    {
      chunkPosition := position;
      Blocks := blocks;
    }
  }

  /** The chunks loaded at start-up: 0 <= x, y < 10. */
  predicate InLoadedSquare(k: Vec2) {
    0 <= k.x < WorldChunks && 0 <= k.y < WorldChunks
  }

  /** The start-up loop reaches (x, y) after every key before it in x-major order. */
  predicate LoadedBefore(k: Vec2, x: int, y: int) {
    0 <= k.y < WorldChunks && (0 <= k.x < x || (k.x == x && k.y < y))
  }

  /** The world-space offset handed to the terrain generator for chunk coordinate c. */
  function ChunkOffset(c: int, blockScale: real): real {
    (c * ChunkWidth) as real * blockScale
  }

  /** Chunk k's terrain fits inside its grid. */
  predicate ChunkFits(noise: (real, real) -> real, blockScale: real, k: Vec2) {
    TerrainFits(noise, ChunkOffset(k.x, blockScale), ChunkOffset(k.y, blockScale))
  }

  ghost predicate WorldFits(noise: (real, real) -> real, blockScale: real) {
    forall k :: InLoadedSquare(k) ==> ChunkFits(noise, blockScale, k)
  }

  /** Integer division truncated toward zero, as C#'s `/` on int. */
  function TruncDiv(a: int, b: int): (q: int)
    requires b > 0
    ensures a >= 0 ==> q * b <= a < q * b + b
    ensures a < 0 ==> q * b - b < a <= q * b
  {
    if a >= 0 then a / b else -((-a) / b)
  }

  /** The chunk that owns a world block position. y is ignored; x and z are
      divided by the chunk width with truncation, so the remainder takes the
      sign of the coordinate. */
  function GetChunkContainingBlock(blockWorldPos: V3): (k: Vec2)
    ensures blockWorldPos.x >= 0 ==> 0 <= blockWorldPos.x - k.x * ChunkWidth < ChunkWidth
    ensures blockWorldPos.x < 0 ==> -ChunkWidth < blockWorldPos.x - k.x * ChunkWidth <= 0
    ensures blockWorldPos.z >= 0 ==> 0 <= blockWorldPos.z - k.y * ChunkWidth < ChunkWidth
    ensures blockWorldPos.z < 0 ==> -ChunkWidth < blockWorldPos.z - k.y * ChunkWidth <= 0
  {
    Vec2(TruncDiv(blockWorldPos.x, ChunkWidth), TruncDiv(blockWorldPos.z, ChunkWidth))
  }

  /** The world block position of a chunk's local origin. */
  function ChunkOrigin(k: Vec2): V3 {
    V3(k.x * ChunkWidth, 0, k.y * ChunkWidth)
  }

  /** The call an edit makes on the owning chunk, if any. */
  datatype Edit =
    | NoEdit
    | DestroyBlock(target: ChunkData, local: V3)
    | SpawnBlock(target: ChunkData, local: V3)

  class GameWorld {
    var ChunkDatas: map<Vec2, ChunkData>

    constructor ()
      ensures ChunkDatas == map[]
    {
      ChunkDatas := map[];
    }

    /** Loads the 10 x 10 square of chunks, each with a new ChunkData and a new
        grid. `ok` is false when the terrain generation of chunk `failed` threw,
        which ends the start-up with exactly the chunks before it in x-major order. */
    method Start(noise: (real, real) -> real, blockScale: real) returns (ok: bool, ghost failed: Vec2)
      requires ChunkDatas == map[]
      modifies this
      ensures ok <==> WorldFits(noise, blockScale)
      ensures forall k :: k in ChunkDatas ==> InLoadedSquare(k)
      ensures ok ==> forall k :: InLoadedSquare(k) ==> k in ChunkDatas
      ensures !ok ==> && InLoadedSquare(failed) && !ChunkFits(noise, blockScale, failed)
                      && (forall k :: LoadedBefore(k, failed.x, failed.y) ==> ChunkFits(noise, blockScale, k))
                      && (forall k :: k in ChunkDatas <==> LoadedBefore(k, failed.x, failed.y))
      ensures forall k :: k in ChunkDatas ==> fresh(ChunkDatas[k]) && fresh(ChunkDatas[k].Blocks)
      ensures forall k, j :: k in ChunkDatas && j in ChunkDatas && k != j ==> ChunkDatas[k].Blocks != ChunkDatas[j].Blocks
      ensures forall k :: k in ChunkDatas ==>
        && ChunkDatas[k].chunkPosition == k
        && IsTerrain(ChunkDatas[k].Blocks, noise, ChunkOffset(k.x, blockScale), ChunkOffset(k.y, blockScale))
    {
      var x := 0;
      while x < WorldChunks
        invariant 0 <= x <= WorldChunks
        invariant forall k :: k in ChunkDatas <==> LoadedBefore(k, x, 0)
        invariant forall k :: LoadedBefore(k, x, 0) ==> ChunkFits(noise, blockScale, k)
        invariant forall k :: k in ChunkDatas ==>
          && ChunkDatas[k].chunkPosition == k
          && IsTerrain(ChunkDatas[k].Blocks, noise, ChunkOffset(k.x, blockScale), ChunkOffset(k.y, blockScale))
        invariant forall k :: k in ChunkDatas ==> fresh(ChunkDatas[k]) && fresh(ChunkDatas[k].Blocks)
        invariant forall k, j :: k in ChunkDatas && j in ChunkDatas && k != j ==> ChunkDatas[k].Blocks != ChunkDatas[j].Blocks
      {
        var y := 0;
        while y < WorldChunks
          invariant 0 <= y <= WorldChunks
          invariant forall k :: k in ChunkDatas <==> LoadedBefore(k, x, y)
          invariant forall k :: LoadedBefore(k, x, y) ==> ChunkFits(noise, blockScale, k)
          invariant forall k :: k in ChunkDatas ==>
            && ChunkDatas[k].chunkPosition == k
            && IsTerrain(ChunkDatas[k].Blocks, noise, ChunkOffset(k.x, blockScale), ChunkOffset(k.y, blockScale))
          invariant forall k :: k in ChunkDatas ==> fresh(ChunkDatas[k]) && fresh(ChunkDatas[k].Blocks)
          invariant forall k, j :: k in ChunkDatas && j in ChunkDatas && k != j ==> ChunkDatas[k].Blocks != ChunkDatas[j].Blocks
        {
          var xPos := ChunkOffset(x, blockScale);
          var zPos := ChunkOffset(y, blockScale);
          var blocks, generated := GenerateTerrain(noise, xPos, zPos);
          if !generated {
            assert !ChunkFits(noise, blockScale, Vec2(x, y));
            return false, Vec2(x, y);
          }
          var chunkData := new ChunkData(Vec2(x, y), blocks);
          // Dictionary.Add would throw on a repeated key; the loop never repeats one.
          assert Vec2(x, y) !in ChunkDatas;
          ChunkDatas := ChunkDatas[Vec2(x, y) := chunkData];
          y := y + 1;
        }
        x := x + 1;
      }
      ok, failed := true, Vec2(0, 0);
    }

    /** The edit dispatch for a click: mouse button 0 destroys, button 1 spawns,
        at `blockWorldPos`, and only when the owning chunk is loaded. The call is
        returned as an Edit value; no chunk table entry changes. */
    method Update(button0Down: bool, button1Down: bool, blockWorldPos: V3) returns (edit: Edit)
      ensures !(button0Down || button1Down) ==> edit == NoEdit
      ensures GetChunkContainingBlock(blockWorldPos) !in ChunkDatas ==> edit == NoEdit
      ensures button0Down && GetChunkContainingBlock(blockWorldPos) in ChunkDatas ==>
        edit == DestroyBlock(ChunkDatas[GetChunkContainingBlock(blockWorldPos)],
                             blockWorldPos.Minus(ChunkOrigin(GetChunkContainingBlock(blockWorldPos))))
      ensures !button0Down && button1Down && GetChunkContainingBlock(blockWorldPos) in ChunkDatas ==>
        edit == SpawnBlock(ChunkDatas[GetChunkContainingBlock(blockWorldPos)],
                           blockWorldPos.Minus(ChunkOrigin(GetChunkContainingBlock(blockWorldPos))))
    {
      edit := NoEdit;
      if button0Down || button1Down {
        var isDestroying := button0Down;
        var chunkPos := GetChunkContainingBlock(blockWorldPos);
        if chunkPos in ChunkDatas {
          var chunkData := ChunkDatas[chunkPos];
          var chunkOrigin := ChunkOrigin(chunkPos);
          if isDestroying {
            edit := DestroyBlock(chunkData, blockWorldPos.Minus(chunkOrigin));
          } else {
            edit := SpawnBlock(chunkData, blockWorldPos.Minus(chunkOrigin));
          }
        }
      }
    }
  }

  // ---------------------------------------------------------------------------
  // Coordinate lemmas

  /** For non-negative x and z the local coordinate lies inside the chunk's
      footprint, y is unchanged, and origin + local gives back the position. */
  lemma LocalCoordinateInChunk(p: V3)
    requires p.x >= 0 && p.z >= 0
    ensures var local := p.Minus(ChunkOrigin(GetChunkContainingBlock(p)));
      && 0 <= local.x < ChunkWidth && local.y == p.y && 0 <= local.z < ChunkWidth
      && ChunkOrigin(GetChunkContainingBlock(p)).Plus(local) == p
  {
  }

  /** Truncation sends -10 < x < 0 to chunk column 0 with a negative local x,
      e.g. x = -1 gives chunk 0 and local x = -1. */
  lemma NegativeXRoutesToColumnZero(p: V3)
    requires -ChunkWidth < p.x < 0
    ensures GetChunkContainingBlock(p).x == 0
    ensures p.Minus(ChunkOrigin(GetChunkContainingBlock(p))).x == p.x
  {
  }

  /** A block's owner is in the loaded square exactly when -10 < x < 100 and
      -10 < z < 100 (so for x, z >= 0: exactly when x < 100 and z < 100). */
  lemma OwnerLoadedIff(p: V3)
    ensures InLoadedSquare(GetChunkContainingBlock(p)) <==>
      -ChunkWidth < p.x < WorldChunks * ChunkWidth && -ChunkWidth < p.z < WorldChunks * ChunkWidth
  {
    var k := GetChunkContainingBlock(p);
    TruncDivRange(p.x);
    TruncDivRange(p.z);
  }

  /** In a world holding exactly the loaded square, an edit is dispatched
      exactly when -10 < x < 100 and -10 < z < 100. */
  lemma DispatchedIffInsideLoadedSquare(w: GameWorld, p: V3)
    requires forall k :: k in w.ChunkDatas <==> InLoadedSquare(k)
    ensures GetChunkContainingBlock(p) in w.ChunkDatas <==>
      -ChunkWidth < p.x < WorldChunks * ChunkWidth && -ChunkWidth < p.z < WorldChunks * ChunkWidth
  {
    OwnerLoadedIff(p);
  }

  lemma TruncDivRange(a: int)
    ensures 0 <= TruncDiv(a, ChunkWidth) < WorldChunks <==> -ChunkWidth < a < WorldChunks * ChunkWidth
  {
  }

  /** Chunk cx + 1's first column samples the noise where chunk cx's column 10
      would, which makes the terrain continuous across the seam, exactly when
      the block scale is 1. */
  lemma SeamAlignedIffUnitScale(cx: int, blockScale: real)
    ensures SampleCoordinate(0, ChunkOffset(cx + 1, blockScale)) == SampleCoordinate(ChunkWidth, ChunkOffset(cx, blockScale))
      <==> blockScale == 1.0
  {
    assert ChunkOffset(cx + 1, blockScale) == ChunkOffset(cx, blockScale) + 10.0 * blockScale;
  }
}
