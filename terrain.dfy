/** The terrain column filler: each column of a chunk is filled with Dirt up to
    a height taken from a 2D noise field sampled at world-space coordinates. */
module Terrain {
  import opened Voxel

  /** Block kinds. Air is the enum's zero value, which a fresh grid holds. */
  datatype BlockType = Air | Dirt | Stone

  /** The noise coordinate of local column c in a chunk whose world offset is `offset`. */
  function SampleCoordinate(c: int, offset: real): real {
    (c as real + offset) * 0.2
  }

  /** The fill height of column (x, z): noise * 5 + 10. */
  function ColumnHeight(noise: (real, real) -> real, xOffset: real, zOffset: real, x: int, z: int): real {
    noise(SampleCoordinate(x, xOffset), SampleCoordinate(z, zOffset)) * 5.0 + 10.0
  }

  /** The block the filler leaves at (x, y, z): Dirt strictly below the column height. */
  function TerrainCell(noise: (real, real) -> real, xOffset: real, zOffset: real, x: int, y: int, z: int): BlockType {
    if (y as real) < ColumnHeight(noise, xOffset, zOffset, x, z) then Dirt else Air
  }

  /** The column's writes stay inside the grid: its height does not exceed 128. */
  predicate ColumnFits(noise: (real, real) -> real, xOffset: real, zOffset: real, x: int, z: int) {
    ColumnHeight(noise, xOffset, zOffset, x, z) <= ChunkHeight as real
  }

  predicate TerrainFits(noise: (real, real) -> real, xOffset: real, zOffset: real) {
    forall x, z :: 0 <= x < ChunkWidth && 0 <= z < ChunkWidth ==> ColumnFits(noise, xOffset, zOffset, x, z)
  }

  /** The grid holds exactly the terrain for these offsets. */
  ghost predicate IsTerrain(a: array3<BlockType>, noise: (real, real) -> real, xOffset: real, zOffset: real)
    reads a
  {
    && IsChunkGrid(a)
    && forall x, y, z :: 0 <= x < ChunkWidth && 0 <= y < ChunkHeight && 0 <= z < ChunkWidth ==>
         a[x, y, z] == TerrainCell(noise, xOffset, zOffset, x, y, z)
  }

  /** Fills a fresh chunk grid column by column. A column taller than the grid
      makes the write at y = 128 fail (an index-out-of-range exception in C#);
      `ok` is false exactly then, and the grid is then incomplete. */
  method GenerateTerrain(noise: (real, real) -> real, xOffset: real, zOffset: real)
      returns (result: array3<BlockType>, ok: bool)
    ensures fresh(result) && IsChunkGrid(result)
    ensures ok <==> TerrainFits(noise, xOffset, zOffset)
    ensures ok ==> IsTerrain(result, noise, xOffset, zOffset)
  {
    result := new BlockType[ChunkWidth, ChunkHeight, ChunkWidth]((_, _, _) => Air);
    ok := true;
    var x := 0;
    while x < ChunkWidth
      invariant 0 <= x <= ChunkWidth
      invariant forall i, k :: 0 <= i < x && 0 <= k < ChunkWidth ==> ColumnFits(noise, xOffset, zOffset, i, k)
      invariant forall i, j, k :: 0 <= i < ChunkWidth && 0 <= j < ChunkHeight && 0 <= k < ChunkWidth ==>
        result[i, j, k] == if i < x then TerrainCell(noise, xOffset, zOffset, i, j, k) else Air
    {
      var z := 0;
      while z < ChunkWidth
        invariant 0 <= z <= ChunkWidth
        invariant forall i, k :: 0 <= i < x && 0 <= k < ChunkWidth ==> ColumnFits(noise, xOffset, zOffset, i, k)
        invariant forall k :: 0 <= k < z ==> ColumnFits(noise, xOffset, zOffset, x, k)
        invariant forall i, j, k :: 0 <= i < ChunkWidth && 0 <= j < ChunkHeight && 0 <= k < ChunkWidth ==>
          result[i, j, k] == if i < x || (i == x && k < z) then TerrainCell(noise, xOffset, zOffset, i, j, k) else Air
      {
        var height := ColumnHeight(noise, xOffset, zOffset, x, z);
        var y := 0;
        while (y as real) < height
          invariant 0 <= y <= ChunkHeight
          invariant y == 0 || ((y - 1) as real) < height
          invariant forall i, j, k :: 0 <= i < ChunkWidth && 0 <= j < ChunkHeight && 0 <= k < ChunkWidth ==>
            result[i, j, k] ==
              if i < x || (i == x && k < z) then TerrainCell(noise, xOffset, zOffset, i, j, k)
              else if i == x && k == z && j < y then Dirt
              else Air
          decreases ChunkHeight - y
        {
          if y >= ChunkHeight {
            assert !ColumnFits(noise, xOffset, zOffset, x, z);
            ok := false;
            return;
          }
          result[x, y, z] := Dirt;
          y := y + 1;
        }
        z := z + 1;
      }
      x := x + 1;
    }
  }

  // ---------------------------------------------------------------------------
  // Column shape and height bounds

  /** The number of integers y >= 0 with y < h: the least integer >= h for h > 0, else 0. */
  function DirtCount(h: real): (n: nat)
    ensures h <= 0.0 ==> n == 0
    ensures h > 0.0 ==> h <= n as real < h + 1.0
  {
    if h <= 0.0 then 0
    else
      var f := h.Floor;
      if f as real == h then f else f + 1
  }

  /** Every column is a contiguous run of Dirt from y = 0, DirtCount(height) cells long. */
  lemma ColumnIsDirtPrefix(noise: (real, real) -> real, xOffset: real, zOffset: real, x: int, y: nat, z: int)
    ensures TerrainCell(noise, xOffset, zOffset, x, y, z) == Dirt
        <==> y < DirtCount(ColumnHeight(noise, xOffset, zOffset, x, z))
    ensures TerrainCell(noise, xOffset, zOffset, x, y, z) != Stone
  {
    var h := ColumnHeight(noise, xOffset, zOffset, x, z);
    var n := DirtCount(h);
    if h > 0.0 && y < n {
      assert (y as real) <= (n - 1) as real;
    }
  }

  /** The noise value at column (x, z)'s sample point lies in [0, 1]. */
  predicate UnitNoiseAt(noise: (real, real) -> real, xOffset: real, zOffset: real, x: int, z: int) {
    0.0 <= noise(SampleCoordinate(x, xOffset), SampleCoordinate(z, zOffset)) <= 1.0
  }

  /** With noise in [0, 1] a column's height is in [10, 15], so it holds 10 to 15
      Dirt cells and stays well inside the 128-block grid. */
  lemma UnitNoiseHeight(noise: (real, real) -> real, xOffset: real, zOffset: real, x: int, z: int)
    requires UnitNoiseAt(noise, xOffset, zOffset, x, z)
    ensures 10.0 <= ColumnHeight(noise, xOffset, zOffset, x, z) <= 15.0
    ensures 10 <= DirtCount(ColumnHeight(noise, xOffset, zOffset, x, z)) <= 15
    ensures ColumnFits(noise, xOffset, zOffset, x, z)
  {
    var n := DirtCount(ColumnHeight(noise, xOffset, zOffset, x, z));
    assert 10.0 <= n as real < 16.0;
  }

  /** Noise in [0, 1] at every sample point of a chunk: generation never fails. */
  lemma UnitNoiseFits(noise: (real, real) -> real, xOffset: real, zOffset: real)
    requires forall x, z :: 0 <= x < ChunkWidth && 0 <= z < ChunkWidth ==> UnitNoiseAt(noise, xOffset, zOffset, x, z)
    ensures TerrainFits(noise, xOffset, zOffset)
  {
    forall x, z | 0 <= x < ChunkWidth && 0 <= z < ChunkWidth
      ensures ColumnFits(noise, xOffset, zOffset, x, z)
    {
      UnitNoiseHeight(noise, xOffset, zOffset, x, z);
    }
  }

  /** A column depends only on the noise value at its sample point. */
  lemma ColumnDependsOnSample(noise1: (real, real) -> real, xOffset1: real, zOffset1: real, x1: int, z1: int,
                              noise2: (real, real) -> real, xOffset2: real, zOffset2: real, x2: int, z2: int, y: int)
    requires noise1(SampleCoordinate(x1, xOffset1), SampleCoordinate(z1, zOffset1))
          == noise2(SampleCoordinate(x2, xOffset2), SampleCoordinate(z2, zOffset2))
    ensures TerrainCell(noise1, xOffset1, zOffset1, x1, y, z1) == TerrainCell(noise2, xOffset2, zOffset2, x2, y, z2)
  {
  }
}
