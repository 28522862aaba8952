/** The face-culling mesher of one chunk: every non-empty block emits one quad
    for each of its six axis neighbours that reads as empty (0). */
module Mesher {
  import opened Voxel

  /** The six face directions, in the order the mesher tests them. */
  datatype Direction = Right | Left | Front | Back | Top | Bottom

  /** The neighbour of p toward d: p plus Unity's unit vector right, left,
      forward, back, up or down. */
  function Neighbour(p: V3, d: Direction): V3 {
    match d
    case Right => V3(p.x + 1, p.y, p.z)
    case Left => V3(p.x - 1, p.y, p.z)
    case Front => V3(p.x, p.y, p.z + 1)
    case Back => V3(p.x, p.y, p.z - 1)
    case Top => V3(p.x, p.y + 1, p.z)
    case Bottom => V3(p.x, p.y - 1, p.z)
  }

  /** One emitted quad: the side of the block at `pos` facing `dir`. */
  datatype Face = Face(dir: Direction, pos: V3)

  /** The abstract mesh handed to the renderer. */
  datatype Mesh = Mesh(vertices: seq<V3>, triangles: seq<int>)

  /** The four vertices appended for a face, in emission order: the block
      position plus the side's four corner offsets. */
  function FaceVertices(f: Face): (r: seq<V3>)
    ensures |r| == 4
  {
    var p := f.pos;
    match f.dir
    case Right => [p.Plus(V3(1, 0, 0)), p.Plus(V3(1, 1, 0)), p.Plus(V3(1, 0, 1)), p.Plus(V3(1, 1, 1))]
    case Left => [p.Plus(V3(0, 0, 0)), p.Plus(V3(0, 0, 1)), p.Plus(V3(0, 1, 0)), p.Plus(V3(0, 1, 1))]
    case Front => [p.Plus(V3(0, 0, 1)), p.Plus(V3(1, 0, 1)), p.Plus(V3(0, 1, 1)), p.Plus(V3(1, 1, 1))]
    case Back => [p.Plus(V3(0, 0, 0)), p.Plus(V3(0, 1, 0)), p.Plus(V3(1, 0, 0)), p.Plus(V3(1, 1, 0))]
    case Top => [p.Plus(V3(0, 1, 0)), p.Plus(V3(0, 1, 1)), p.Plus(V3(1, 1, 0)), p.Plus(V3(1, 1, 1))]
    case Bottom => [p.Plus(V3(0, 0, 0)), p.Plus(V3(1, 0, 0)), p.Plus(V3(0, 0, 1)), p.Plus(V3(1, 0, 1))]
  }

  /** The six indices of a quad's two triangles, given the vertex count `n`
      before its four vertices were appended. */
  function QuadIndices(n: int): seq<int> {
    [n, n + 1, n + 2, n + 1, n + 3, n + 2]
  }

  /** The vertex list of a sequence of faces, appended face by face. */
  function VerticesOf(fs: seq<Face>): (r: seq<V3>)
    ensures |r| == 4 * |fs|
  {
    if fs == [] then [] else FaceVertices(fs[0]) + VerticesOf(fs[1..])
  }

  /** The triangle list after `n` faces: every index names a vertex of the mesh. */
  function QuadList(n: nat): (r: seq<int>)
    ensures |r| == 6 * n
  {
    if n == 0 then [] else QuadList(n - 1) + QuadIndices(4 * (n - 1))
  }

  /** The bounds-checked read: anything outside the chunk reads as empty. */
  function GetBlockAtPosition(a: array3<int>, p: V3): (r: int)
    requires IsChunkGrid(a)
    reads a
    ensures InChunk(p) ==> r == a[p.x, p.y, p.z]
    ensures r != 0 ==> InChunk(p)
  {
    if InChunk(p) then a[p.x, p.y, p.z] else 0
  }

  /** The face of `p` toward `d`, when the neighbour that way reads as empty. */
  function FaceIf(a: array3<int>, p: V3, d: Direction): seq<Face>
    requires IsChunkGrid(a)
    reads a
  {
    if GetBlockAtPosition(a, Neighbour(p, d)) == 0 then [Face(d, p)] else []
  }

  /** The order in which the renderer tests a block's sides. */
  const SideOrder: seq<Direction> := [Right, Left, Front, Back, Top, Bottom]

  /** The exposed sides of the block at p among the directions ds, in that order. */
  function SidesOf(a: array3<int>, p: V3, ds: seq<Direction>): seq<Face>
    requires IsChunkGrid(a)
    reads a
  {
    if ds == [] then [] else SidesOf(a, p, ds[..|ds| - 1]) + FaceIf(a, p, ds[|ds| - 1])
  }

  /** The faces one block emits: none for an empty block, else its exposed sides in SideOrder. */
  function BlockFaces(a: array3<int>, p: V3): seq<Face>
    requires IsChunkGrid(a)
    reads a
  {
    if GetBlockAtPosition(a, p) == 0 then [] else SidesOf(a, p, SideOrder)
  }

  /** The number of blocks in a chunk: 10 * 128 * 10. */
  const BlockCount: int := 12800

  /** The position of block (x, y, z) in meshing order: layers y, then rows x,
      then z. With ChunkWidth = 10 this is (y * 10 + x) * 10 + z. */
  function BlockIndex(x: int, y: int, z: int): int {
    y * 100 + x * 10 + z
  }

  /** The block at meshing position i. */
  function BlockAt(i: int): V3 {
    V3((i / 10) % 10, i / 100, i % 10)
  }

  /** Faces of the blocks at meshing positions lo .. hi - 1, in that order. */
  function FacesBetween(a: array3<int>, lo: int, hi: int): seq<Face>
    requires IsChunkGrid(a) && lo <= hi
    reads a
    decreases hi - lo
  {
    if hi == lo then [] else FacesBetween(a, lo, hi - 1) + BlockFaces(a, BlockAt(hi - 1))
  }

  /** Faces of the first z blocks of row x of layer y: the innermost loop. */
  function RowFaces(a: array3<int>, y: int, x: int, z: nat): seq<Face>
    requires IsChunkGrid(a)
    reads a
  {
    if z == 0 then [] else RowFaces(a, y, x, z - 1) + BlockFaces(a, V3(x, y, z - 1))
  }

  /** Faces of the first x rows of layer y: the middle loop. */
  function LayerFaces(a: array3<int>, y: int, x: nat): seq<Face>
    requires IsChunkGrid(a)
    reads a
  {
    if x == 0 then [] else LayerFaces(a, y, x - 1) + RowFaces(a, y, x - 1, ChunkWidth)
  }

  /** Faces of the first y layers: the outer loop. */
  function LayersFaces(a: array3<int>, y: nat): seq<Face>
    requires IsChunkGrid(a)
    reads a
  {
    if y == 0 then [] else LayersFaces(a, y - 1) + LayerFaces(a, y - 1, ChunkWidth)
  }

  /** Every face of the chunk, in the renderer's y, x, z loop order. */
  function ChunkFaces(a: array3<int>): seq<Face>
    requires IsChunkGrid(a)
    reads a
  {
    LayersFaces(a, ChunkHeight)
  }

  /** A face is visible when its block is non-empty and the neighbour it faces reads as empty. */
  predicate Visible(a: array3<int>, f: Face)
    requires IsChunkGrid(a)
    reads a
  {
    GetBlockAtPosition(a, f.pos) != 0 && GetBlockAtPosition(a, Neighbour(f.pos, f.dir)) == 0
  }

  // ---------------------------------------------------------------------------
  // The renderer state

  class ChunkRenderer {
    var Blocks: array3<int>
    var vertices: seq<V3>
    var triangles: seq<int>
    /** The faces emitted so far; the lists are exactly their concatenated quads. */
    ghost var faces: seq<Face>

    ghost predicate Valid()
      reads this
    {
      IsChunkGrid(Blocks) && vertices == VerticesOf(faces) && triangles == QuadList(|faces|)
    }

    constructor (blocks: array3<int>)
      requires IsChunkGrid(blocks)
      ensures Valid() && Blocks == blocks && faces == []
      ensures vertices == [] && triangles == []
    {
      Blocks := blocks;
      vertices := [];
      triangles := [];
      faces := [];
    }

    /** Appends the two triangles of the quad formed by the last four vertices. */
    method AddSquareToVertices()
      modifies this`triangles
      ensures triangles == old(triangles) + QuadIndices(|vertices| - 4)
    {
      triangles := triangles + [|vertices| - 4, |vertices| - 3, |vertices| - 2];
      triangles := triangles + [|vertices| - 3, |vertices| - 1, |vertices| - 2];
    }

    method GenerateRightSide(p: V3)
      requires Valid()
      modifies this`vertices, this`triangles, this`faces
      ensures Valid() && faces == old(faces) + [Face(Right, p)]
      ensures vertices == old(vertices) + FaceVertices(Face(Right, p))
      ensures triangles == old(triangles) + QuadIndices(old(|vertices|))
    {
      vertices := vertices + [p.Plus(V3(1, 0, 0)), p.Plus(V3(1, 1, 0)), p.Plus(V3(1, 0, 1)), p.Plus(V3(1, 1, 1))];
      AddSquareToVertices();
      AppendFace(faces, Face(Right, p));
      faces := faces + [Face(Right, p)];
    }

    method GenerateLeftSide(p: V3)
      requires Valid()
      modifies this`vertices, this`triangles, this`faces
      ensures Valid() && faces == old(faces) + [Face(Left, p)]
      ensures vertices == old(vertices) + FaceVertices(Face(Left, p))
      ensures triangles == old(triangles) + QuadIndices(old(|vertices|))
    {
      vertices := vertices + [p.Plus(V3(0, 0, 0)), p.Plus(V3(0, 0, 1)), p.Plus(V3(0, 1, 0)), p.Plus(V3(0, 1, 1))];
      AddSquareToVertices();
      AppendFace(faces, Face(Left, p));
      faces := faces + [Face(Left, p)];
    }

    method GenerateFrontSide(p: V3)
      requires Valid()
      modifies this`vertices, this`triangles, this`faces
      ensures Valid() && faces == old(faces) + [Face(Front, p)]
      ensures vertices == old(vertices) + FaceVertices(Face(Front, p))
      ensures triangles == old(triangles) + QuadIndices(old(|vertices|))
    {
      vertices := vertices + [p.Plus(V3(0, 0, 1)), p.Plus(V3(1, 0, 1)), p.Plus(V3(0, 1, 1)), p.Plus(V3(1, 1, 1))];
      AddSquareToVertices();
      AppendFace(faces, Face(Front, p));
      faces := faces + [Face(Front, p)];
    }

    method GenerateBackSide(p: V3)
      requires Valid()
      modifies this`vertices, this`triangles, this`faces
      ensures Valid() && faces == old(faces) + [Face(Back, p)]
      ensures vertices == old(vertices) + FaceVertices(Face(Back, p))
      ensures triangles == old(triangles) + QuadIndices(old(|vertices|))
    {
      vertices := vertices + [p.Plus(V3(0, 0, 0)), p.Plus(V3(0, 1, 0)), p.Plus(V3(1, 0, 0)), p.Plus(V3(1, 1, 0))];
      AddSquareToVertices();
      AppendFace(faces, Face(Back, p));
      faces := faces + [Face(Back, p)];
    }

    method GenerateTopSide(p: V3)
      requires Valid()
      modifies this`vertices, this`triangles, this`faces
      ensures Valid() && faces == old(faces) + [Face(Top, p)]
      ensures vertices == old(vertices) + FaceVertices(Face(Top, p))
      ensures triangles == old(triangles) + QuadIndices(old(|vertices|))
    {
      vertices := vertices + [p.Plus(V3(0, 1, 0)), p.Plus(V3(0, 1, 1)), p.Plus(V3(1, 1, 0)), p.Plus(V3(1, 1, 1))];
      AddSquareToVertices();
      AppendFace(faces, Face(Top, p));
      faces := faces + [Face(Top, p)];
    }

    method GenerateBottomSide(p: V3)
      requires Valid()
      modifies this`vertices, this`triangles, this`faces
      ensures Valid() && faces == old(faces) + [Face(Bottom, p)]
      ensures vertices == old(vertices) + FaceVertices(Face(Bottom, p))
      ensures triangles == old(triangles) + QuadIndices(old(|vertices|))
    {
      vertices := vertices + [p.Plus(V3(0, 0, 0)), p.Plus(V3(1, 0, 0)), p.Plus(V3(0, 0, 1)), p.Plus(V3(1, 0, 1))];
      AddSquareToVertices();
      AppendFace(faces, Face(Bottom, p));
      faces := faces + [Face(Bottom, p)];
    }

    /** Emits the visible faces of the block at (x, y, z); an empty block emits nothing. */
    method GenerateBlock(x: int, y: int, z: int)
      requires Valid()
      modifies this`vertices, this`triangles, this`faces
      ensures Valid() && faces == old(faces) + BlockFaces(Blocks, V3(x, y, z))
      ensures GetBlockAtPosition(Blocks, V3(x, y, z)) == 0 ==> vertices == old(vertices) && triangles == old(triangles)
    {
      var p := V3(x, y, z);
      if GetBlockAtPosition(Blocks, p) == 0 {
        assert faces == old(faces) + BlockFaces(Blocks, p);
        return;
      }
      ghost var f0 := faces;
      GenerateSideIfExposed(p, Right);
      ghost var f1 := faces;
      GenerateSideIfExposed(p, Left);
      ghost var f2 := faces;
      GenerateSideIfExposed(p, Front);
      ghost var f3 := faces;
      GenerateSideIfExposed(p, Back);
      ghost var f4 := faces;
      GenerateSideIfExposed(p, Top);
      ghost var f5 := faces;
      GenerateSideIfExposed(p, Bottom);
      ConcatSix(f0, FaceIf(Blocks, p, Right), FaceIf(Blocks, p, Left), FaceIf(Blocks, p, Front),
        FaceIf(Blocks, p, Back), FaceIf(Blocks, p, Top), FaceIf(Blocks, p, Bottom));
      SixSides(Blocks, p);
    }

    /** One line of GenerateBlock: the side toward `d` is generated when that neighbour reads as empty. */
    method GenerateSideIfExposed(p: V3, d: Direction)
      requires Valid()
      modifies this`vertices, this`triangles, this`faces
      ensures Valid() && faces == old(faces) + FaceIf(Blocks, p, d)
    {
      if GetBlockAtPosition(Blocks, Neighbour(p, d)) == 0 {
        match d
        case Right => GenerateRightSide(p);
        case Left => GenerateLeftSide(p);
        case Front => GenerateFrontSide(p);
        case Back => GenerateBackSide(p);
        case Top => GenerateTopSide(p);
        case Bottom => GenerateBottomSide(p);
      } else {
        assert faces == old(faces) + [];
      }
    }

    /** The meshing pass: every block in y, x, z order; the grid is only read.
        Each level of the nested loop is one method below. */
    method Start() returns (mesh: Mesh)
      requires Valid()
      modifies this`vertices, this`triangles, this`faces
      ensures Valid() && faces == old(faces) + ChunkFaces(Blocks)
      ensures mesh == Mesh(vertices, triangles)
    {
      ghost var f0 := faces;
      var y := 0;
      while y < ChunkHeight
        invariant 0 <= y <= ChunkHeight
        invariant Valid() && faces == f0 + LayersFaces(Blocks, y)
      {
        ghost var done := LayersFaces(Blocks, y);
        GenerateLayer(y);
        AppendAssoc(f0, done, LayerFaces(Blocks, y, ChunkWidth));
        y := y + 1;
      }
      mesh := Mesh(vertices, triangles);
    }

    /** The x loop of the meshing pass: the blocks of layer y. */
    method GenerateLayer(y: int)
      requires Valid()
      modifies this`vertices, this`triangles, this`faces
      ensures Valid() && faces == old(faces) + LayerFaces(Blocks, y, ChunkWidth)
    {
      ghost var f0 := faces;
      var x := 0;
      while x < ChunkWidth
        invariant 0 <= x <= ChunkWidth
        invariant Valid() && faces == f0 + LayerFaces(Blocks, y, x)
      {
        ghost var done := LayerFaces(Blocks, y, x);
        GenerateRow(y, x);
        AppendAssoc(f0, done, RowFaces(Blocks, y, x, ChunkWidth));
        x := x + 1;
      }
    }

    /** The z loop of the meshing pass: the blocks of row x of layer y. */
    method GenerateRow(y: int, x: int)
      requires Valid()
      modifies this`vertices, this`triangles, this`faces
      ensures Valid() && faces == old(faces) + RowFaces(Blocks, y, x, ChunkWidth)
    {
      ghost var f0 := faces;
      var z := 0;
      while z < ChunkWidth
        invariant 0 <= z <= ChunkWidth
        invariant Valid() && faces == f0 + RowFaces(Blocks, y, x, z)
      {
        ghost var done := RowFaces(Blocks, y, x, z);
        GenerateBlock(x, y, z);
        AppendAssoc(f0, done, BlockFaces(Blocks, V3(x, y, z)));
        z := z + 1;
      }
    }
  }

  /** Meshing a chunk grid with a fresh renderer: the mesh is the quads of the
      chunk's visible faces, and the grid is left as it was. */
  method RenderChunk(blocks: array3<int>) returns (mesh: Mesh)
    requires IsChunkGrid(blocks)
    ensures mesh.vertices == VerticesOf(ChunkFaces(blocks))
    ensures mesh.triangles == QuadList(|ChunkFaces(blocks)|)
  {
    var r := new ChunkRenderer(blocks);
    mesh := r.Start();
    assert r.faces == [] + ChunkFaces(blocks) == ChunkFaces(blocks);
  }

  // ---------------------------------------------------------------------------
  // Lemmas

  lemma AppendAssoc<T>(a: seq<T>, b: seq<T>, c: seq<T>)
    ensures a + b + c == a + (b + c)
  {
  }

  /** Appending six pieces one after another appends their concatenation. */
  lemma ConcatSix<T>(s0: seq<T>, s1: seq<T>, s2: seq<T>, s3: seq<T>, s4: seq<T>, s5: seq<T>, s6: seq<T>)
    ensures s0 + s1 + s2 + s3 + s4 + s5 + s6 == s0 + (s1 + s2 + s3 + s4 + s5 + s6)
  {
  }

  /** Appending a face appends its four vertices and its six indices. */
  lemma {:induction false} AppendFace(fs: seq<Face>, f: Face)
    ensures VerticesOf(fs + [f]) == VerticesOf(fs) + FaceVertices(f)
    ensures QuadList(|fs + [f]|) == QuadList(|fs|) + QuadIndices(|VerticesOf(fs)|)
  {
    if fs != [] {
      assert (fs + [f])[1..] == fs[1..] + [f];
      AppendFace(fs[1..], f);
      AppendAssoc(FaceVertices(fs[0]), VerticesOf(fs[1..]), FaceVertices(f));
    }
  }

  // ---------------------------------------------------------------------------
  // Which faces are emitted

  /** Appending a direction appends its side test. */
  lemma SidesOfSnoc(a: array3<int>, p: V3, ds: seq<Direction>, d: Direction)
    requires IsChunkGrid(a)
    ensures SidesOf(a, p, ds + [d]) == SidesOf(a, p, ds) + FaceIf(a, p, d)
  {
    assert (ds + [d])[..|ds|] == ds;
  }

  /** The six side tests in SideOrder, written out as the renderer performs them. */
  lemma SixSides(a: array3<int>, p: V3)
    requires IsChunkGrid(a)
    ensures SidesOf(a, p, SideOrder) == FaceIf(a, p, Right) + FaceIf(a, p, Left) + FaceIf(a, p, Front)
      + FaceIf(a, p, Back) + FaceIf(a, p, Top) + FaceIf(a, p, Bottom)
  {
    var d1 := [Right];
    var d2 := d1 + [Left];
    var d3 := d2 + [Front];
    var d4 := d3 + [Back];
    var d5 := d4 + [Top];
    var d6 := d5 + [Bottom];
    assert SidesOf(a, p, d1) == FaceIf(a, p, Right) by {
      assert d1[..0] == [];
    }
    SidesOfSnoc(a, p, d1, Left);
    SidesOfSnoc(a, p, d2, Front);
    SidesOfSnoc(a, p, d3, Back);
    SidesOfSnoc(a, p, d4, Top);
    SidesOfSnoc(a, p, d5, Bottom);
    assert d6 == SideOrder;
  }

  lemma {:induction false} SidesOfMembers(a: array3<int>, p: V3, ds: seq<Direction>, f: Face)
    requires IsChunkGrid(a)
    ensures f in SidesOf(a, p, ds) <==>
      f.pos == p && f.dir in ds && GetBlockAtPosition(a, Neighbour(p, f.dir)) == 0
  {
    if ds != [] {
      var m := |ds| - 1;
      SidesOfMembers(a, p, ds[..m], f);
      assert f.dir in ds <==> f.dir in ds[..m] || f.dir == ds[m] by {
        assert ds == ds[..m] + [ds[m]];
      }
    }
  }

  lemma BlockFacesMembers(a: array3<int>, p: V3, f: Face)
    requires IsChunkGrid(a)
    ensures f in BlockFaces(a, p) <==> f.pos == p && Visible(a, f)
  {
    SidesOfMembers(a, p, SideOrder, f);
    assert f.dir in SideOrder by {
      match f.dir
      case Right => assert SideOrder[0] == Right;
      case Left => assert SideOrder[1] == Left;
      case Front => assert SideOrder[2] == Front;
      case Back => assert SideOrder[3] == Back;
      case Top => assert SideOrder[4] == Top;
      case Bottom => assert SideOrder[5] == Bottom;
    }
  }

  /** BlockAt inverts BlockIndex on the positions of one row's width. */
  lemma BlockAtIndex(p: V3)
    requires 0 <= p.x < ChunkWidth && 0 <= p.z < ChunkWidth
    ensures BlockAt(BlockIndex(p.x, p.y, p.z)) == p
  {
    var i := BlockIndex(p.x, p.y, p.z);
    assert i == (p.y * 10 + p.x) * 10 + p.z;
    assert i / 10 == p.y * 10 + p.x;
    assert i == p.y * 100 + (p.x * 10 + p.z);
  }

  /** Meshing positions 0 .. 12799 are exactly the chunk's cells. */
  lemma IndexOfBlockAt(i: int)
    requires 0 <= i < BlockCount
    ensures var q := BlockAt(i); InChunk(q) && BlockIndex(q.x, q.y, q.z) == i
  {
    var q := i / 10;
    assert i == q * 10 + i % 10;
    assert q == (q / 10) * 10 + q % 10;
    assert i / 100 == q / 10;
  }

  /** Consecutive ranges of meshing positions concatenate. */
  lemma {:induction false} FacesBetweenSplit(a: array3<int>, lo: int, mid: int, hi: int)
    requires IsChunkGrid(a) && lo <= mid <= hi
    ensures FacesBetween(a, lo, mid) + FacesBetween(a, mid, hi) == FacesBetween(a, lo, hi)
    decreases hi - mid
  {
    if mid < hi {
      FacesBetweenSplit(a, lo, mid, hi - 1);
      AppendAssoc(FacesBetween(a, lo, mid), FacesBetween(a, mid, hi - 1), BlockFaces(a, BlockAt(hi - 1)));
    }
  }

  /** A row of the loop is the range of its ten meshing positions. */
  lemma {:induction false} RowFacesInOrder(a: array3<int>, y: int, x: int, z: nat)
    requires IsChunkGrid(a) && 0 <= x < ChunkWidth && z <= ChunkWidth
    ensures RowFaces(a, y, x, z) == FacesBetween(a, BlockIndex(x, y, 0), BlockIndex(x, y, z))
  {
    if z > 0 {
      RowFacesInOrder(a, y, x, z - 1);
      RowStep(a, y, x, z);
    }
  }

  /** Meshing position BlockIndex(x, y, z - 1) holds block (x, y, z - 1). */
  lemma RowStep(a: array3<int>, y: int, x: int, z: int)
    requires IsChunkGrid(a) && 0 <= x < ChunkWidth && 0 < z <= ChunkWidth
    ensures FacesBetween(a, BlockIndex(x, y, 0), BlockIndex(x, y, z))
      == FacesBetween(a, BlockIndex(x, y, 0), BlockIndex(x, y, z - 1)) + BlockFaces(a, V3(x, y, z - 1))
  {
    BlockAtIndex(V3(x, y, z - 1));
    assert BlockIndex(x, y, z) - 1 == BlockIndex(x, y, z - 1);
  }

  /** A layer of the loop is the range of its hundred meshing positions. */
  lemma {:induction false} LayerFacesInOrder(a: array3<int>, y: int, x: nat)
    requires IsChunkGrid(a) && x <= ChunkWidth
    ensures LayerFaces(a, y, x) == FacesBetween(a, BlockIndex(0, y, 0), BlockIndex(x, y, 0))
  {
    if x > 0 {
      LayerFacesInOrder(a, y, x - 1);
      RowFacesInOrder(a, y, x - 1, ChunkWidth);
      FacesBetweenSplit(a, BlockIndex(0, y, 0), BlockIndex(x - 1, y, 0), BlockIndex(x, y, 0));
    }
  }

  /** The first y layers of the loop are meshing positions 0 .. 100 * y - 1. */
  lemma {:induction false} LayersFacesInOrder(a: array3<int>, y: nat)
    requires IsChunkGrid(a)
    ensures LayersFaces(a, y) == FacesBetween(a, 0, BlockIndex(0, y, 0))
  {
    if y > 0 {
      LayersFacesInOrder(a, y - 1);
      LayerFacesInOrder(a, y - 1, ChunkWidth);
      FacesBetweenSplit(a, 0, BlockIndex(0, y - 1, 0), BlockIndex(0, y, 0));
    }
  }

  /** The nested loops visit the chunk's blocks in meshing order 0 .. 12799. */
  lemma ChunkFacesInOrder(a: array3<int>)
    requires IsChunkGrid(a)
    ensures ChunkFaces(a) == FacesBetween(a, 0, BlockCount)
  {
    LayersFacesInOrder(a, ChunkHeight);
  }

  /** The faces of the block at meshing position i are the visible faces at that position. */
  lemma BlockAtMembers(a: array3<int>, i: int, f: Face)
    requires IsChunkGrid(a) && 0 <= i < BlockCount
    ensures f in BlockFaces(a, BlockAt(i)) <==>
      InChunk(f.pos) && BlockIndex(f.pos.x, f.pos.y, f.pos.z) == i && Visible(a, f)
  {
    BlockFacesMembers(a, BlockAt(i), f);
    IndexOfBlockAt(i);
    if InChunk(f.pos) {
      BlockAtIndex(f.pos);
    }
  }

  lemma {:induction false} FacesBetweenMembers(a: array3<int>, lo: int, hi: int, f: Face)
    requires IsChunkGrid(a) && 0 <= lo <= hi <= BlockCount
    ensures f in FacesBetween(a, lo, hi) <==>
      InChunk(f.pos) && lo <= BlockIndex(f.pos.x, f.pos.y, f.pos.z) < hi && Visible(a, f)
    decreases hi - lo
  {
    if lo < hi {
      FacesBetweenMembers(a, lo, hi - 1, f);
      BlockAtMembers(a, hi - 1, f);
    }
  }

  /** A face is in the chunk's mesh exactly when its block is non-empty and the
      neighbour it faces reads as empty (out-of-grid neighbours read as empty). */
  lemma FaceEmittedIff(a: array3<int>, f: Face)
    requires IsChunkGrid(a)
    ensures f in ChunkFaces(a) <==> Visible(a, f)
  {
    ChunkFacesInOrder(a);
    FacesBetweenMembers(a, 0, BlockCount, f);
  }

  /** A non-empty block always shows the sides that face out of the chunk. */
  lemma BorderFaceEmitted(a: array3<int>, p: V3, d: Direction)
    requires IsChunkGrid(a)
    requires GetBlockAtPosition(a, p) != 0 && !InChunk(Neighbour(p, d))
    ensures Face(d, p) in ChunkFaces(a)
  {
    FaceEmittedIff(a, Face(d, p));
  }

  /** Two vertically stacked non-empty blocks hide the faces they share. */
  lemma StackedBlocksCullSharedFaces(a: array3<int>, p: V3)
    requires IsChunkGrid(a)
    requires GetBlockAtPosition(a, p) != 0 && GetBlockAtPosition(a, Neighbour(p, Top)) != 0
    ensures Face(Top, p) !in ChunkFaces(a)
    ensures Face(Bottom, Neighbour(p, Top)) !in ChunkFaces(a)
  {
    FaceEmittedIff(a, Face(Top, p));
    FaceEmittedIff(a, Face(Bottom, Neighbour(p, Top)));
    assert Neighbour(Neighbour(p, Top), Bottom) == p;
  }

  /** An all-empty grid produces an empty mesh. */
  lemma EmptyChunkHasNoFaces(a: array3<int>)
    requires IsChunkGrid(a)
    requires forall x, y, z :: 0 <= x < ChunkWidth && 0 <= y < ChunkHeight && 0 <= z < ChunkWidth ==> a[x, y, z] == 0
    ensures ChunkFaces(a) == []
    ensures VerticesOf(ChunkFaces(a)) == [] && QuadList(|ChunkFaces(a)|) == []
  {
    if ChunkFaces(a) != [] {
      var f := ChunkFaces(a)[0];
      FaceEmittedIff(a, f);
      assert false;
    }
  }

  // ---------------------------------------------------------------------------
  // A single block

  /** The faces of a block whose six neighbours all read as empty. */
  function AllSides(p: V3): seq<Face> {
    [Face(Right, p), Face(Left, p), Face(Front, p), Face(Back, p), Face(Top, p), Face(Bottom, p)]
  }

  /** The grid holds exactly one non-empty block, at p. */
  predicate SoleBlock(a: array3<int>, p: V3)
    requires IsChunkGrid(a)
    reads a
  {
    && InChunk(p) && a[p.x, p.y, p.z] != 0
    && forall x, y, z :: 0 <= x < ChunkWidth && 0 <= y < ChunkHeight && 0 <= z < ChunkWidth && V3(x, y, z) != p
         ==> a[x, y, z] == 0
  }

  /** Every cell of the grid except p reads as empty. */
  lemma SoleBlockElsewhereEmpty(a: array3<int>, p: V3, q: V3)
    requires IsChunkGrid(a) && SoleBlock(a, p)
    requires q != p
    ensures GetBlockAtPosition(a, q) == 0
  {
    if InChunk(q) {
      assert a[q.x, q.y, q.z] == 0;
    }
  }

  /** A non-empty block whose six neighbours read as empty shows all six sides. */
  lemma ExposedBlockFaces(a: array3<int>, p: V3)
    requires IsChunkGrid(a) && GetBlockAtPosition(a, p) != 0
    requires GetBlockAtPosition(a, Neighbour(p, Right)) == 0 && GetBlockAtPosition(a, Neighbour(p, Left)) == 0
    requires GetBlockAtPosition(a, Neighbour(p, Front)) == 0 && GetBlockAtPosition(a, Neighbour(p, Back)) == 0
    requires GetBlockAtPosition(a, Neighbour(p, Top)) == 0 && GetBlockAtPosition(a, Neighbour(p, Bottom)) == 0
    ensures BlockFaces(a, p) == AllSides(p)
  {
    SixSides(a, p);
  }

  /** The sole block shows all six sides. */
  lemma SoleBlockOwnFaces(a: array3<int>, p: V3)
    requires IsChunkGrid(a) && SoleBlock(a, p)
    ensures BlockFaces(a, p) == AllSides(p)
  {
    SoleBlockElsewhereEmpty(a, p, Neighbour(p, Right));
    SoleBlockElsewhereEmpty(a, p, Neighbour(p, Left));
    SoleBlockElsewhereEmpty(a, p, Neighbour(p, Front));
    SoleBlockElsewhereEmpty(a, p, Neighbour(p, Back));
    SoleBlockElsewhereEmpty(a, p, Neighbour(p, Top));
    SoleBlockElsewhereEmpty(a, p, Neighbour(p, Bottom));
    ExposedBlockFaces(a, p);
  }

  lemma SoleBlockFaces(a: array3<int>, p: V3, q: V3)
    requires IsChunkGrid(a) && SoleBlock(a, p)
    ensures BlockFaces(a, q) == if q == p then AllSides(p) else []
  {
    if q == p {
      SoleBlockOwnFaces(a, p);
    } else {
      SoleBlockElsewhereEmpty(a, p, q);
    }
  }

  /** Only the sole block's meshing position contributes faces. */
  lemma SoleBlockAt(a: array3<int>, p: V3, i: int)
    requires IsChunkGrid(a) && SoleBlock(a, p) && 0 <= i < BlockCount
    ensures BlockFaces(a, BlockAt(i)) == if i == BlockIndex(p.x, p.y, p.z) then AllSides(p) else []
  {
    IndexOfBlockAt(i);
    BlockAtIndex(p);
    SoleBlockFaces(a, p, BlockAt(i));
  }

  lemma {:induction false} SoleBlockBetween(a: array3<int>, p: V3, lo: int, hi: int)
    requires IsChunkGrid(a) && SoleBlock(a, p) && 0 <= lo <= hi <= BlockCount
    ensures FacesBetween(a, lo, hi) == if lo <= BlockIndex(p.x, p.y, p.z) < hi then AllSides(p) else []
    decreases hi - lo
  {
    if lo < hi {
      var rest := FacesBetween(a, lo, hi - 1);
      var here := BlockFaces(a, BlockAt(hi - 1));
      SoleBlockBetween(a, p, lo, hi - 1);
      SoleBlockAt(a, p, hi - 1);
      if BlockIndex(p.x, p.y, p.z) == hi - 1 {
        assert rest == [] && here == AllSides(p);
      } else {
        assert here == [];
      }
      assert FacesBetween(a, lo, hi) == rest + here;
    }
  }

  /** A lone non-empty block emits all six faces: 24 vertices and 36 indices. */
  lemma SoleBlockMesh(a: array3<int>, p: V3)
    requires IsChunkGrid(a) && SoleBlock(a, p)
    ensures ChunkFaces(a) == AllSides(p)
    ensures |VerticesOf(ChunkFaces(a))| == 24 && |QuadList(|ChunkFaces(a)|)| == 36
  {
    ChunkFacesInOrder(a);
    SoleBlockBetween(a, p, 0, BlockCount);
  }

  // ---------------------------------------------------------------------------
  // Shape of the vertex and index lists

  /** The k-th face owns vertices 4k .. 4k+3. */
  lemma {:induction false} VerticesOfFace(fs: seq<Face>, k: nat)
    requires k < |fs|
    ensures VerticesOf(fs)[4 * k .. 4 * k + 4] == FaceVertices(fs[k])
  {
    var rest := VerticesOf(fs[1..]);
    assert VerticesOf(fs) == FaceVertices(fs[0]) + rest;
    if k > 0 {
      VerticesOfFace(fs[1..], k - 1);
      assert VerticesOf(fs)[4 * k .. 4 * k + 4] == rest[4 * (k - 1) .. 4 * (k - 1) + 4];
    }
  }

  /** The k-th face's indices are (n, n+1, n+2, n+1, n+3, n+2) with n = 4k. */
  lemma {:induction false} QuadListFace(n: nat, k: nat)
    requires k < n
    ensures QuadList(n)[6 * k .. 6 * k + 6] == QuadIndices(4 * k)
  {
    if k < n - 1 {
      QuadListFace(n - 1, k);
      assert QuadList(n)[..6 * (n - 1)] == QuadList(n - 1);
    } else {
      assert QuadList(n)[6 * (n - 1)..] == QuadIndices(4 * (n - 1));
    }
  }

  /** Every triangle index names one of the mesh's vertices. */
  lemma {:induction false} QuadListInRange(n: nat, i: int)
    requires 0 <= i < |QuadList(n)|
    ensures 0 <= QuadList(n)[i] < 4 * n
  {
    if i < 6 * (n - 1) {
      QuadListInRange(n - 1, i);
      assert QuadList(n)[i] == QuadList(n - 1)[i];
    } else {
      assert QuadList(n)[i] == QuadIndices(4 * (n - 1))[i - 6 * (n - 1)];
    }
  }

  /** A consistent renderer holds 4 vertices and 6 indices per emitted face,
      and every triangle index names one of its vertices. */
  lemma RendererIndicesInRange(r: ChunkRenderer, i: int)
    requires r.Valid() && 0 <= i < |r.triangles|
    ensures |r.vertices| == 4 * |r.faces| && |r.triangles| == 6 * |r.faces|
    ensures 0 <= r.triangles[i] < |r.vertices|
  {
    QuadListInRange(|r.faces|, i);
  }

  /** The vertex v lies on the side of the unit cube at f.pos that f faces. */
  predicate OnSide(f: Face, v: V3) {
    var p := f.pos;
    && p.x <= v.x <= p.x + 1 && p.y <= v.y <= p.y + 1 && p.z <= v.z <= p.z + 1
    && match f.dir
       case Right => v.x == p.x + 1
       case Left => v.x == p.x
       case Front => v.z == p.z + 1
       case Back => v.z == p.z
       case Top => v.y == p.y + 1
       case Bottom => v.y == p.y
  }

  /** All four vertices of a face lie on that side of its block's cube. */
  lemma FaceVerticesOnSide(f: Face, i: nat)
    requires i < 4
    ensures OnSide(f, FaceVertices(f)[i])
  {
  }

  /** Every vertex of a chunk's mesh lies on the side of a visible face of the grid. */
  lemma MeshVertexOnVisibleFace(a: array3<int>, i: nat)
    requires IsChunkGrid(a)
    requires i < |VerticesOf(ChunkFaces(a))|
    ensures Visible(a, ChunkFaces(a)[i / 4])
    ensures OnSide(ChunkFaces(a)[i / 4], VerticesOf(ChunkFaces(a))[i])
  {
    var fs := ChunkFaces(a);
    var k := i / 4;
    VerticesOfFace(fs, k);
    assert VerticesOf(fs)[i] == VerticesOf(fs)[4 * k .. 4 * k + 4][i - 4 * k];
    FaceVerticesOnSide(fs[k], i - 4 * k);
    FaceEmittedIff(a, fs[k]);
  }
}
