# Voxel sandbox core in Dafny

This project models the core of a small Unity voxel sandbox. The world is a
10 × 10 square of chunks. Each chunk is a 10 × 128 × 10 grid of blocks. The
model covers three parts:

- **Terrain column filler** (`terrain.dfy`, module `Terrain`). It allocates a chunk grid of Air cells. Every column `(x, z)` is then filled with Dirt below `noise((x + xOffset) * 0.2, (z + zOffset) * 0.2) * 5 + 10`.
- **World chunk table and edit routing** (`world.dfy`, module `World`). It fills the `ChunkDatas` table with the loaded square. It then routes a destroy or spawn click at an integer world block position to the chunk that owns it. The owner is found by truncating division by the chunk width, as in C#.
- **Face-culling chunk mesher** (`mesher.dfy`, module `Mesher`). It walks the integer block grid in y, x, z order and skips empty (0) blocks. For every axis neighbour that reads as 0, it appends one quad to the vertex and triangle lists: 4 vertices and 6 indices. Positions outside the grid read as 0.

`voxel.dfy` (module `Voxel`) holds the shared constants and integer vectors.

`ChunkRenderer` and `GameWorld` are Dafny classes whose methods update their
fields, as in the source. `ChunkRenderer` has a ghost field `faces`, the list
of faces emitted so far. `Valid()`, the class invariant, ties the vertex and
triangle lists to that field. The meshing loop is proved against `ChunkFaces`,
the chunk's faces in loop order. A lemma shows that a face is in
`ChunkFaces(a)` exactly when its block is non-empty and its neighbour reads as
empty. `GenerateTerrain` fills a fresh `array3` with the source's nested loops.
It is proved against `TerrainCell`.

**Where the specification and the code disagree, the model follows the code:**

- The specification asks for floor division when finding the owning chunk. `GameWorld.GetChunkContainingBlock` uses C# `/`, which truncates toward zero. The model truncates, so `x = -1` lands in chunk column 0 at local `x = -1`.
- The specification fills `y < floor(height)`. The loop `for (int y = 0; y < height; y++)` fills every integer below `height`. That is the least integer `>= height` cells for a positive height (`DirtCount`).
- The specification says adjacent chunks sample the noise field at matching world coordinates. The code samples at `(x + cx * chunkWidth * blockScale) * 0.2`, where x is the local column and cx the chunk column. That matches at the seam only when `blockScale` is 1 (`SeamAlignedIffUnitScale`).
- The specification describes a neighbour-aware, UV-emitting mesher. The code's `ChunkRenderer` reads only its own grid and emits no UVs, and that is what is modelled.

## Model

| member | source | states |
|---|---|---|
| Mesher.GetBlockAtPosition | Assets/Scripts/ChunkRenderer.cs:56-68 | a position inside the 10×128×10 grid reads its cell, and a non-zero read only comes from inside, so every position outside the grid reads as empty |
| Mesher.FaceVertices | Assets/Scripts/ChunkRenderer.cs:70-128 | every face contributes exactly four vertices |
| Mesher.VerticesOf | Assets/Scripts/ChunkRenderer.cs:70-128 | the vertex list of F faces has exactly 4·F entries |
| Mesher.QuadList | Assets/Scripts/ChunkRenderer.cs:130-139 | the index list after F faces has exactly 6·F entries |
| Mesher.ChunkRenderer.constructor | Assets/Scripts/ChunkRenderer.cs:11-14 | a renderer starts with empty vertex and triangle lists, no faces, and the invariant holding |
| Mesher.ChunkRenderer.AddSquareToVertices | Assets/Scripts/ChunkRenderer.cs:130-139 | appends the six indices (n, n+1, n+2, n+1, n+3, n+2) of the quad whose four vertices start at n = count − 4; only the triangle list changes |
| Mesher.ChunkRenderer.GenerateRightSide | Assets/Scripts/ChunkRenderer.cs:70-78 | appends the right side's four vertices (x = p.x + 1) and its six indices, records the face, and keeps the invariant |
| Mesher.ChunkRenderer.GenerateLeftSide | Assets/Scripts/ChunkRenderer.cs:80-88 | the same for the left side (x = p.x) |
| Mesher.ChunkRenderer.GenerateFrontSide | Assets/Scripts/ChunkRenderer.cs:90-98 | the same for the front side (z = p.z + 1) |
| Mesher.ChunkRenderer.GenerateBackSide | Assets/Scripts/ChunkRenderer.cs:100-108 | the same for the back side (z = p.z) |
| Mesher.ChunkRenderer.GenerateTopSide | Assets/Scripts/ChunkRenderer.cs:110-118 | the same for the top side (y = p.y + 1) |
| Mesher.ChunkRenderer.GenerateBottomSide | Assets/Scripts/ChunkRenderer.cs:120-128 | the same for the bottom side (y = p.y) |
| Mesher.ChunkRenderer.GenerateSideIfExposed | Assets/Scripts/ChunkRenderer.cs:47-52 | one of the six tests: the side is emitted exactly when the neighbour that way reads as 0, and nothing is appended otherwise |
| Mesher.ChunkRenderer.GenerateBlock | Assets/Scripts/ChunkRenderer.cs:41-54 | appends exactly the block's exposed sides in right, left, front, back, top, bottom order; an empty block changes neither list |
| Mesher.ChunkRenderer.GenerateRow | Assets/Scripts/ChunkRenderer.cs:26-29 | the z loop appends the faces of row x of layer y, block after block |
| Mesher.ChunkRenderer.GenerateLayer | Assets/Scripts/ChunkRenderer.cs:24-30 | the x loop appends the faces of layer y, row after row |
| Mesher.ChunkRenderer.Start | Assets/Scripts/ChunkRenderer.cs:16-39 | the y loop appends every face of the chunk in loop order, keeps vertices = quads of those faces and triangles = their indices, and hands both lists on as the mesh; the grid is outside its frame |
| Mesher.RenderChunk | Assets/Scripts/ChunkRenderer.cs:16-39 | meshing a grid with a fresh renderer yields exactly the vertices and indices of the chunk's faces |
| Mesher.AppendFace | Assets/Scripts/ChunkRenderer.cs:70-139 | appending one face appends its 4 vertices and the 6 indices numbered from the old vertex count |
| Mesher.SixSides | Assets/Scripts/ChunkRenderer.cs:47-52 | a block's exposed sides are the six neighbour tests concatenated in source order |
| Mesher.SidesOfMembers | Assets/Scripts/ChunkRenderer.cs:47-52 | a face is among the tested sides exactly when it belongs to the block, its direction is tested, and that neighbour reads as 0 |
| Mesher.BlockFacesMembers | Assets/Scripts/ChunkRenderer.cs:45-52 | a block emits a face exactly when the face is its own and visible: the block is non-empty and the neighbour reads as 0 |
| Mesher.BlockAtIndex | Assets/Scripts/ChunkRenderer.cs:22-31 | the block at loop position (y·10 + x)·10 + z is (x, y, z) |
| Mesher.IndexOfBlockAt | Assets/Scripts/ChunkRenderer.cs:22-31 | loop positions 0 .. 12799 are exactly the grid's cells, each visited once |
| Mesher.FacesBetweenSplit | Assets/Scripts/ChunkRenderer.cs:22-31 | consecutive ranges of loop positions concatenate |
| Mesher.RowFacesInOrder | Assets/Scripts/ChunkRenderer.cs:26-29 | the z loop covers loop positions (y·10 + x)·10 .. +9 in order |
| Mesher.RowStep | Assets/Scripts/ChunkRenderer.cs:26-29 | one more step of the z loop appends the faces of block (x, y, z − 1), which sits at loop position (y·10 + x)·10 + z − 1 |
| Mesher.LayerFacesInOrder | Assets/Scripts/ChunkRenderer.cs:24-30 | the x loop covers the layer's hundred loop positions in order |
| Mesher.LayersFacesInOrder | Assets/Scripts/ChunkRenderer.cs:22-31 | y layers of the outer loop cover loop positions 0 .. 100·y − 1 in order |
| Mesher.ChunkFacesInOrder | Assets/Scripts/ChunkRenderer.cs:22-31 | the nested loops emit the faces of loop positions 0 .. 12799 in order |
| Mesher.BlockAtMembers | Assets/Scripts/ChunkRenderer.cs:41-54 | the block at loop position i emits exactly the visible faces located at position i |
| Mesher.FacesBetweenMembers | Assets/Scripts/ChunkRenderer.cs:22-54 | a range of loop positions emits exactly the visible faces whose block lies in that range |
| Mesher.FaceEmittedIff | Assets/Scripts/ChunkRenderer.cs:41-67 | a face is in the chunk's mesh if and only if its block is non-zero and the neighbour it faces reads as 0 |
| Mesher.BorderFaceEmitted | Assets/Scripts/ChunkRenderer.cs:56-67 | a non-zero block always emits the sides that face out of the grid |
| Mesher.StackedBlocksCullSharedFaces | Assets/Scripts/ChunkRenderer.cs:47-52 | two vertically stacked non-zero blocks emit neither the lower top face nor the upper bottom face |
| Mesher.EmptyChunkHasNoFaces | Assets/Scripts/ChunkRenderer.cs:45 | an all-zero grid yields no faces, no vertices and no indices |
| Mesher.SoleBlockElsewhereEmpty | Assets/Scripts/ChunkRenderer.cs:56-67 | with one non-zero block, every other position reads as 0 |
| Mesher.ExposedBlockFaces | Assets/Scripts/ChunkRenderer.cs:45-52 | a non-zero block with six empty neighbours emits all six sides in source order |
| Mesher.SoleBlockOwnFaces | Assets/Scripts/ChunkRenderer.cs:45-52 | a lone non-zero block emits all six sides |
| Mesher.SoleBlockFaces | Assets/Scripts/ChunkRenderer.cs:45-52 | with one non-zero block, only that block emits faces |
| Mesher.SoleBlockAt | Assets/Scripts/ChunkRenderer.cs:22-52 | with one non-zero block, only its loop position contributes faces |
| Mesher.SoleBlockBetween | Assets/Scripts/ChunkRenderer.cs:22-52 | a range of loop positions yields the six sides if it contains the lone block, else nothing |
| Mesher.SoleBlockMesh | Assets/Scripts/ChunkRenderer.cs:22-52 | a single non-zero block in an otherwise empty grid yields its 6 faces: 24 vertices and 36 indices |
| Mesher.VerticesOfFace | Assets/Scripts/ChunkRenderer.cs:70-128 | the k-th emitted face owns vertices 4k .. 4k+3 |
| Mesher.QuadListFace | Assets/Scripts/ChunkRenderer.cs:130-139 | the k-th face's indices are exactly (n, n+1, n+2, n+1, n+3, n+2) with n = 4k |
| Mesher.QuadListInRange | Assets/Scripts/ChunkRenderer.cs:130-139 | after F faces every index lies in [0, 4·F) |
| Mesher.RendererIndicesInRange | Assets/Scripts/ChunkRenderer.cs:70-139 | in a consistent renderer \|vertices\| = 4·F, \|triangles\| = 6·F, and every triangle index names an existing vertex |
| Mesher.FaceVerticesOnSide | Assets/Scripts/ChunkRenderer.cs:72-125 | each of a face's vertices lies in p + {0,1}³ on that side's plane, e.g. x = p.x + 1 for the right side and y = p.y for the bottom |
| Mesher.MeshVertexOnVisibleFace | Assets/Scripts/ChunkRenderer.cs:41-128 | every vertex of a chunk's mesh lies on the side of a visible face |
| Terrain.GenerateTerrain | Assets/Scripts/TerrainGenerator.cs:5-23 | the result is a newly allocated 10×128×10 grid. Generation succeeds exactly when every column height is at most 128, and then each cell is Dirt below its column's height and Air elsewhere. A taller column fails at the write to y = 128 |
| Terrain.DirtCount | Assets/Scripts/TerrainGenerator.cs:15 | the number of integers 0 ≤ y < h is 0 for h ≤ 0 and otherwise the least integer ≥ h |
| Terrain.ColumnIsDirtPrefix | Assets/Scripts/TerrainGenerator.cs:13-19 | each column is a contiguous Dirt run from y = 0, DirtCount(height) cells long, and holds no Stone |
| Terrain.UnitNoiseHeight | Assets/Scripts/TerrainGenerator.cs:13-17 | with noise in [0, 1] a column's height is in [10, 15], it holds 10 to 15 Dirt cells, and it fits below 128 |
| Terrain.UnitNoiseFits | Assets/Scripts/TerrainGenerator.cs:13-17 | with noise in [0, 1] at every sample point, no write leaves the grid |
| Terrain.ColumnDependsOnSample | Assets/Scripts/TerrainGenerator.cs:13 | a column depends only on the noise value at ((x + xOffset)·0.2, (z + zOffset)·0.2): equal samples give equal cells |
| World.ChunkData.constructor | Assets/Scripts/ChunkData.cs:3-8 | a chunk record holds the given chunk position and block grid |
| World.GameWorld.constructor | Assets/Scripts/GameWorld.cs:8 | the chunk table starts empty |
| World.GameWorld.Start | Assets/Scripts/GameWorld.cs:13-37 | start-up completes exactly when every chunk's terrain fits. The table then holds exactly the 100 keys (x, y) with 0 ≤ x, y < 10. Every entry's chunkPosition is its key and its grid is that chunk's terrain at offset (x·10·blockScale, y·10·blockScale). Every entry and its grid are newly allocated, and no two keys share a grid. When a chunk's generation throws, the table holds exactly the keys before it in x-major order |
| World.GameWorld.Update | Assets/Scripts/GameWorld.cs:39-76 | no button, or an owner missing from the table: nothing is dispatched. Otherwise button 0 destroys and button 1 spawns, on the single owning chunk, at blockWorldPos − chunkOrigin, and the table is left unchanged |
| World.TruncDiv | Assets/Scripts/GameWorld.cs:80-81 | C# integer division: the quotient truncates toward zero, so the remainder takes the dividend's sign |
| World.GetChunkContainingBlock | Assets/Scripts/GameWorld.cs:78-82 | the owner key is (x / 10, z / 10) truncated toward zero; y is ignored |
| World.LocalCoordinateInChunk | Assets/Scripts/GameWorld.cs:59-62 | for x, z ≥ 0 the local coordinate has x, z in [0, 10) and y unchanged, and chunkOrigin + local = blockWorldPos |
| World.NegativeXRoutesToColumnZero | Assets/Scripts/GameWorld.cs:78-82 | −10 < x < 0 is routed to chunk column 0 with a negative local x |
| World.OwnerLoadedIff | Assets/Scripts/GameWorld.cs:78-82 | the owner lies in the loaded square exactly when −10 < x < 100 and −10 < z < 100 |
| World.DispatchedIffInsideLoadedSquare | Assets/Scripts/GameWorld.cs:59-60 | with the loaded square in the table, an edit is dispatched exactly when −10 < x < 100 and −10 < z < 100 (for x, z ≥ 0: exactly when x < 100 and z < 100) |
| World.TruncDivRange | Assets/Scripts/GameWorld.cs:80-81 | a truncated chunk coordinate is in [0, 10) exactly when the block coordinate is in (−10, 100) |
| World.SeamAlignedIffUnitScale | Assets/Scripts/GameWorld.cs:21-22 | chunk cx + 1's first column samples the noise where chunk cx's column 10 would exactly when blockScale = 1 |

## Left out

- `Assets/Scripts/PlayerMovement.cs`: Rigidbody physics, input axes and timers are engine behaviour with nothing to state about them.
- The Unity mesh hand-off in `ChunkRenderer.Start` (`new Mesh`, `RecalculateNormals`, `RecalculateBounds`, the `MeshFilter` assignment, lines 18 and 33-38) calls a foreign API. `Start` returns the two lists as a `Mesh` value instead.
- `ChunkRenderer.Start` line 20 (`Blocks = TerrainGenerator.GenerateTerrain()`) calls the generator with no arguments and stores a `BlockType` grid in an `int[,,]` field. That does not match `TerrainGenerator.GenerateTerrain`. The renderer is modelled over a given `int` grid, passed to its constructor, with 0 as the empty block.
- The mouse polling, camera ray, `Physics.Raycast`, hit point ± normal offset and `FloorToInt` in `GameWorld.Update` (lines 41-58) are input and floating-point glue. `Update` takes the button states and the integer `blockWorldPos` as parameters.
- `Instantiate` and the renderer back-links (`GameWorld.cs` lines 29-34), and the `renderer` field of `ChunkData`, are scene wiring.
- `DestroyBlock` and `SpawnBlock` are not defined in the renderer shown. `Update` returns the call it makes as an `Edit` value naming the target chunk and local coordinate.
- `blockScale` is not defined in the renderer shown. It is a real parameter of `GameWorld.Start`.
- `Mathf.PerlinNoise` is a parameter `noise: (real, real) -> real`. Its [0, 1] range is an explicit hypothesis of the lemmas that need it.
- Single-precision float rounding in the height and offset computations is modelled with exact reals.
- `BlockType.cs` is not part of this model. `BlockType` is declared as Air (the enum's zero value), Dirt and Stone, and only Air and Dirt play a role.
- GameWorld.Start: `Dictionary.Add` on a repeated key would throw. The loop never repeats a key, and the model asserts this instead of modelling the exception.
- Terrain.GenerateTerrain: the out-of-range write of a column taller than 128 throws in C#. It is modelled as `ok == false` with the grid left incomplete, and nothing is said about that partial grid.
- Mesher.ChunkRenderer.Start: the nested loop is split into `Start`, `GenerateLayer` and `GenerateRow`, one method per loop level. Each of the six `if` lines of `GenerateBlock` is the helper `GenerateSideIfExposed`.
