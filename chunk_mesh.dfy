/** Mesh generation for one chunk: every solid cell emits the sides that are
    not covered by a solid, non-transparent neighbour; each emitted face adds
    four vertices, four UV slots and six indices, and the indices of
    transparent blocks are stored negated. */
module ChunkMesh {

  import opened Wrappers
  import opened TerrainGrid
  import opened Blocks
  import opened ChunkFaces

  /** One emitted face: the cell, the physical side, the block, the face whose
      texture is shown there (after rotation) and the block's transparency. */
  datatype Face = Face(pos: Vec3, side: BlockFace, blockId: int, uvFace: BlockFace, transparent: bool)

  /** Corner `corner` of the UV quad the block uses for `face`. The atlas
      coordinates themselves are not part of this model. */
  datatype UvRef = UvRef(blockId: int, face: BlockFace, corner: int)

  /** A neighbour lets a face show when it is missing, air or transparent. */
  predicate Open(c: Option<Voxel>, transparent: set<int>)
  {
    c.None? || c.value.blockId < 0 || c.value.blockId in transparent
  }

  /** The cell sits on the chunk's border on side `s`. */
  predicate AtEdge(g: GridView, p: Vec3, s: BlockFace)
  {
    match s
    case LEFT => p.x == 0
    case RIGHT => p.x == g.width - 1
    case TOP => p.y == g.height - 1
    case BOTTOM => p.y == 0
    case BACK => p.z == 0
    case FRONT => p.z == g.depth - 1
  }

  predicate InGrid(g: GridView, p: Vec3)
  {
    g.InBounds(p.x, p.y, p.z)
  }

  function Cell(g: GridView, p: Vec3): Option<Voxel>
  {
    g.At(p.x, p.y, p.z)
  }

  /** Side `s` of the cell at `p` is uncovered: on the border, or the
      neighbour on that side is open. */
  predicate Exposed(g: GridView, p: Vec3, s: BlockFace, transparent: set<int>)
    requires InGrid(g, p)
  {
    AtEdge(g, p, s) || Open(Cell(g, Add(p, Normal(s))), transparent)
  }

  /** The cell at `p` emits its side `s`. */
  predicate Emits(g: GridView, p: Vec3, s: BlockFace, transparent: set<int>)
      {
    InGrid(g, p) && IsSolid(Cell(g, p)) && Exposed(g, p, s, transparent)
  }

  /** The face a solid cell emits on side `s`. */
  function MakeFace(g: GridView, p: Vec3, s: BlockFace, transparent: set<int>): Face
    requires InGrid(g, p) && IsSolid(Cell(g, p))
  {
    var v := Cell(g, p).value;
    Face(p, s, v.blockId, TransformFacing(s, v.rotation), v.blockId in transparent)
  }

  function FaceIf(g: GridView, p: Vec3, s: BlockFace, transparent: set<int>): seq<Face>
    requires InGrid(g, p) && IsSolid(Cell(g, p))
  {
    if Exposed(g, p, s, transparent) then [MakeFace(g, p, s, transparent)] else []
  }

  /** The side in slot `k` of the source's side order LEFT, RIGHT, TOP,
      BOTTOM, BACK, FRONT. */
  function SlotSide(k: int): (s: BlockFace)
    requires 0 <= k < 6
    ensures Slot(s) == k
  {
    if k == 0 then LEFT else if k == 1 then RIGHT else if k == 2 then TOP
    else if k == 3 then BOTTOM else if k == 4 then BACK else FRONT
  }

  /** The faces of the solid cell at `p` on the sides in slots 0 .. k-1. */
  function SidesUpTo(g: GridView, p: Vec3, transparent: set<int>, k: int): seq<Face>
    requires InGrid(g, p) && IsSolid(Cell(g, p)) && 0 <= k <= 6
  {
    if k == 0 then [] else SidesUpTo(g, p, transparent, k - 1) + FaceIf(g, p, SlotSide(k - 1), transparent)
  }

  /** The faces of one cell, in the source's side order. */
  function CellFaces(g: GridView, p: Vec3, transparent: set<int>): seq<Face>
    requires InGrid(g, p)
  {
    if !IsSolid(Cell(g, p)) then [] else SidesUpTo(g, p, transparent, 6)
  }

  lemma {:induction false} CellFacesUnrolled(g: GridView, p: Vec3, transparent: set<int>)
    requires InGrid(g, p) && IsSolid(Cell(g, p))
    ensures CellFaces(g, p, transparent) ==
              FaceIf(g, p, LEFT, transparent) + FaceIf(g, p, RIGHT, transparent)
              + FaceIf(g, p, TOP, transparent) + FaceIf(g, p, BOTTOM, transparent)
              + FaceIf(g, p, BACK, transparent) + FaceIf(g, p, FRONT, transparent)
  {
    assert SidesUpTo(g, p, transparent, 1) == FaceIf(g, p, LEFT, transparent);
    assert SidesUpTo(g, p, transparent, 2) == SidesUpTo(g, p, transparent, 1) + FaceIf(g, p, RIGHT, transparent);
    assert SidesUpTo(g, p, transparent, 3) == SidesUpTo(g, p, transparent, 2) + FaceIf(g, p, TOP, transparent);
    assert SidesUpTo(g, p, transparent, 4) == SidesUpTo(g, p, transparent, 3) + FaceIf(g, p, BOTTOM, transparent);
    assert SidesUpTo(g, p, transparent, 5) == SidesUpTo(g, p, transparent, 4) + FaceIf(g, p, BACK, transparent);
    assert SidesUpTo(g, p, transparent, 6) == SidesUpTo(g, p, transparent, 5) + FaceIf(g, p, FRONT, transparent);
  }

  /** Faces of cells (x, y, 0 .. z-1). */
  function RunFaces(g: GridView, x: int, y: int, z: int, transparent: set<int>): seq<Face>
    requires 0 <= x < g.width && 0 <= y < g.height && 0 <= z <= g.depth
  {
    if z == 0 then [] else RunFaces(g, x, y, z - 1, transparent) + CellFaces(g, Vec3(x, y, z - 1), transparent)
  }

  /** Faces of cells (x, 0 .. y-1, *). */
  function ColumnFaces(g: GridView, x: int, y: int, transparent: set<int>): seq<Face>
    requires 0 <= x < g.width && 0 <= y <= g.height
  {
    if y == 0 then [] else ColumnFaces(g, x, y - 1, transparent) + RunFaces(g, x, y - 1, g.depth, transparent)
  }

  /** Faces of cells (0 .. x-1, *, *). */
  function SliceFaces(g: GridView, x: int, transparent: set<int>): seq<Face>
    requires 0 <= x <= g.width
  {
    if x == 0 then [] else SliceFaces(g, x - 1, transparent) + ColumnFaces(g, x - 1, g.height, transparent)
  }

  /** Every face of the chunk, in the order of the x, y, z loops. */
  function Faces(g: GridView, transparent: set<int>): seq<Face>
      {
    SliceFaces(g, g.width, transparent)
  }

  /** A transparent block's indices are stored negated. */
  function Tag(v: int, transparent: bool): int
  {
    if transparent then -v else v
  }

  function Abs(v: int): nat
  {
    if v < 0 then -v else v
  }

  /** The four vertices of a face: the side template moved to the cell. */
  function FaceVertices(f: Face): (vs: seq<Vec3>)
    ensures |vs| == 4
  {
    var t := SideVertices(f.side);
    seq(4, i requires 0 <= i < 4 => Add(t[i], f.pos))
  }

  /** The six indices of a face whose first vertex is number `base`. */
  function FaceIndices(f: Face, base: int): (ix: seq<int>)
    ensures |ix| == 6
  {
    var t := SideIndices(f.side);
    seq(6, i requires 0 <= i < 6 => Tag(base + t[i], f.transparent))
  }

  function FaceUvs(f: Face): (us: seq<UvRef>)
    ensures |us| == 4
  {
    seq(4, i requires 0 <= i < 4 => UvRef(f.blockId, f.uvFace, i))
  }

  /** The vertex list of a face sequence: four per face. */
  function VerticesOf(fs: seq<Face>): (vs: seq<Vec3>)
    ensures |vs| == 4 * |fs|
  {
    if fs == [] then [] else VerticesOf(fs[..|fs| - 1]) + FaceVertices(fs[|fs| - 1])
  }

  /** The index list of a face sequence: six per face, face k based at 4k. */
  function IndicesOf(fs: seq<Face>): (ix: seq<int>)
    ensures |ix| == 6 * |fs|
  {
    if fs == [] then [] else IndicesOf(fs[..|fs| - 1]) + FaceIndices(fs[|fs| - 1], 4 * (|fs| - 1))
  }

  function UvsOf(fs: seq<Face>): (us: seq<UvRef>)
    ensures |us| == 4 * |fs|
  {
    if fs == [] then [] else UvsOf(fs[..|fs| - 1]) + FaceUvs(fs[|fs| - 1])
  }

  /** The three output lists are exactly those of the faces `fs`. */
  ghost predicate Emitted(fs: seq<Face>, vertices: seq<Vec3>, indices: seq<int>, uvs: seq<UvRef>)
  {
    vertices == VerticesOf(fs) && indices == IndicesOf(fs) && uvs == UvsOf(fs)
  }

  lemma {:induction false} EmitOne(fs: seq<Face>, f: Face)
    ensures VerticesOf(fs + [f]) == VerticesOf(fs) + FaceVertices(f)
    ensures IndicesOf(fs + [f]) == IndicesOf(fs) + FaceIndices(f, 4 * |fs|)
    ensures UvsOf(fs + [f]) == UvsOf(fs) + FaceUvs(f)
  {
    assert (fs + [f])[..|fs|] == fs;
  }

  /** The face list one side test adds: the face of voxel `v` at `p` on
      side `s` when that side is exposed, nothing otherwise. */
  function SideFace(exposed: bool, p: Vec3, s: BlockFace, v: Voxel, transparent: set<int>): (fs: seq<Face>)
    ensures |fs| == (if exposed then 1 else 0)
  {
    if exposed then [Face(p, s, v.blockId, TransformFacing(s, v.rotation), v.blockId in transparent)] else []
  }

  lemma {:induction false} FaceIfIsSideFace(g: GridView, p: Vec3, s: BlockFace, transparent: set<int>, exposed: bool)
    requires InGrid(g, p) && IsSolid(Cell(g, p))
    requires exposed == Exposed(g, p, s, transparent)
    ensures FaceIf(g, p, s, transparent) == SideFace(exposed, p, s, Cell(g, p).value, transparent)
  {
  }

  lemma {:induction false} MirrorAt(g: TerrainData, view: GridView, x: int, y: int, z: int)
    requires g.Valid() && g.Mirrors(view) && g.InBounds(x, y, z)
    ensures view.At(x, y, z) == g.voxelData[x, y, z]
  {
  }

  lemma {:induction false} AppendAssoc<T>(a: seq<T>, b: seq<T>, c: seq<T>)
    ensures a + b + c == a + (b + c)
  {
  }

  /** `WriteSideData`: appends the side's four vertices moved to (x, y, z),
      its six indices offset by `indicesCounter` (negated for a transparent
      block) and the four UV corners of the face `face` of the block. */
  method WriteSideData(vertices: seq<Vec3>, indices: seq<int>, uvs: seq<UvRef>, side: BlockFace,
                       indicesCounter: int, x: int, y: int, z: int, blockId: int, face: BlockFace,
                       transparent: set<int>)
    returns (vertices': seq<Vec3>, indices': seq<int>, uvs': seq<UvRef>)
    ensures vertices' == vertices + FaceVertices(Face(Vec3(x, y, z), side, blockId, face, blockId in transparent))
    ensures indices' == indices + FaceIndices(Face(Vec3(x, y, z), side, blockId, face, blockId in transparent), indicesCounter)
    ensures uvs' == uvs + FaceUvs(Face(Vec3(x, y, z), side, blockId, face, blockId in transparent))
  {
    ghost var f := Face(Vec3(x, y, z), side, blockId, face, blockId in transparent);
    var sideIndices := SideIndices(side);
    var sideVertices := SideVertices(side);
    var isTransparent := blockId in transparent;

    var absoluteIndices: seq<int> := [];
    for i := 0 to 6
      invariant absoluteIndices == FaceIndices(f, indicesCounter)[..i]
    {
      var a := indicesCounter + sideIndices[i];
      if isTransparent {
        a := a * -1;
      }
      absoluteIndices := absoluteIndices + [a];
    }

    var absoluteVertices: seq<Vec3> := [];
    for i := 0 to 4
      invariant absoluteVertices == FaceVertices(f)[..i]
    {
      var v := sideVertices[i];
      absoluteVertices := absoluteVertices + [Vec3(v.x + x, v.y + y, v.z + z)];
    }

    vertices' := vertices + absoluteVertices;
    indices' := indices + absoluteIndices;
    uvs' := uvs + [UvRef(blockId, face, 0), UvRef(blockId, face, 1), UvRef(blockId, face, 2), UvRef(blockId, face, 3)];
  }

  /** One side test of the innermost loop: when `exposed` holds, one call of
      `WriteSideData` for side `s` of voxel `v` at `p`, with the counter
      advanced by the four vertices written. */
  method WriteSideIf(exposed: bool, p: Vec3, s: BlockFace, v: Voxel, transparent: set<int>,
                     vertices: seq<Vec3>, indices: seq<int>, uvs: seq<UvRef>, indicesCounter: int,
                     ghost faces: seq<Face>)
    returns (vertices': seq<Vec3>, indices': seq<int>, uvs': seq<UvRef>, indicesCounter': int,
             ghost faces': seq<Face>)
    requires Emitted(faces, vertices, indices, uvs) && indicesCounter == 4 * |faces|
    ensures faces' == faces + SideFace(exposed, p, s, v, transparent)
    ensures Emitted(faces', vertices', indices', uvs') && indicesCounter' == 4 * |faces'|
  {
    if !exposed {
      return vertices, indices, uvs, indicesCounter, faces;
    }
    var face := TransformFacing(s, v.rotation);
    EmitOne(faces, Face(p, s, v.blockId, face, v.blockId in transparent));
    vertices', indices', uvs' := WriteSideData(vertices, indices, uvs, s, indicesCounter, p.x, p.y, p.z,
                                               v.blockId, face, transparent);
    faces' := faces + [Face(p, s, v.blockId, face, v.blockId in transparent)];
    indicesCounter' := indicesCounter + 4;
  }

  /** One of the six neighbour tests of the innermost loop: the bounds test
      on side `s`, or else whether the neighbour's cell is open. */
  method SideTest(g: TerrainData, ghost view: GridView, p: Vec3, s: BlockFace, transparent: set<int>)
    returns (exposed: bool)
    requires g.Valid() && g.Mirrors(view) && InGrid(view, p)
    ensures exposed == Exposed(view, p, s, transparent)
  {
    var voxelData := g.voxelData;
    var (x, y, z) := (p.x, p.y, p.z);
    match s
    case LEFT =>
      exposed := x == 0 || Open(voxelData[x - 1, y, z], transparent);
      if x != 0 { MirrorAt(g, view, x - 1, y, z); }
    case RIGHT =>
      exposed := x == g.width - 1 || Open(voxelData[x + 1, y, z], transparent);
      if x != g.width - 1 { MirrorAt(g, view, x + 1, y, z); }
    case TOP =>
      exposed := y == g.height - 1 || Open(voxelData[x, y + 1, z], transparent);
      if y != g.height - 1 { MirrorAt(g, view, x, y + 1, z); }
    case BOTTOM =>
      exposed := y == 0 || Open(voxelData[x, y - 1, z], transparent);
      if y != 0 { MirrorAt(g, view, x, y - 1, z); }
    case BACK =>
      exposed := z == 0 || Open(voxelData[x, y, z - 1], transparent);
      if z != 0 { MirrorAt(g, view, x, y, z - 1); }
    case FRONT =>
      exposed := z == g.depth - 1 || Open(voxelData[x, y, z + 1], transparent);
      if z != g.depth - 1 { MirrorAt(g, view, x, y, z + 1); }
  }

  /** The six side tests of one solid cell, in the order LEFT, RIGHT, TOP,
      BOTTOM, BACK, FRONT, given the outcome of each neighbour test. */
  method WriteSides(left: bool, right: bool, top: bool, bottom: bool, back: bool, front: bool,
                    p: Vec3, v: Voxel, transparent: set<int>,
                    vertices: seq<Vec3>, indices: seq<int>, uvs: seq<UvRef>, indicesCounter: int,
                    ghost faces: seq<Face>)
    returns (vertices': seq<Vec3>, indices': seq<int>, uvs': seq<UvRef>, indicesCounter': int,
             ghost faces': seq<Face>)
    requires Emitted(faces, vertices, indices, uvs) && indicesCounter == 4 * |faces|
    ensures faces' == faces + (SideFace(left, p, LEFT, v, transparent) + SideFace(right, p, RIGHT, v, transparent)
                               + SideFace(top, p, TOP, v, transparent) + SideFace(bottom, p, BOTTOM, v, transparent)
                               + SideFace(back, p, BACK, v, transparent) + SideFace(front, p, FRONT, v, transparent))
    ensures Emitted(faces', vertices', indices', uvs') && indicesCounter' == 4 * |faces'|
  {
    ghost var a, b, c := SideFace(left, p, LEFT, v, transparent), SideFace(right, p, RIGHT, v, transparent), SideFace(top, p, TOP, v, transparent);
    ghost var d, e, f := SideFace(bottom, p, BOTTOM, v, transparent), SideFace(back, p, BACK, v, transparent), SideFace(front, p, FRONT, v, transparent);
    vertices', indices', uvs', indicesCounter', faces' :=
      WriteSideIf(left, p, LEFT, v, transparent, vertices, indices, uvs, indicesCounter, faces);
    vertices', indices', uvs', indicesCounter', faces' :=
      WriteSideIf(right, p, RIGHT, v, transparent, vertices', indices', uvs', indicesCounter', faces');
    AppendAssoc(faces, a, b);
    vertices', indices', uvs', indicesCounter', faces' :=
      WriteSideIf(top, p, TOP, v, transparent, vertices', indices', uvs', indicesCounter', faces');
    AppendAssoc(faces, a + b, c);
    vertices', indices', uvs', indicesCounter', faces' :=
      WriteSideIf(bottom, p, BOTTOM, v, transparent, vertices', indices', uvs', indicesCounter', faces');
    AppendAssoc(faces, a + b + c, d);
    vertices', indices', uvs', indicesCounter', faces' :=
      WriteSideIf(back, p, BACK, v, transparent, vertices', indices', uvs', indicesCounter', faces');
    AppendAssoc(faces, a + b + c + d, e);
    vertices', indices', uvs', indicesCounter', faces' :=
      WriteSideIf(front, p, FRONT, v, transparent, vertices', indices', uvs', indicesCounter', faces');
    AppendAssoc(faces, a + b + c + d + e, f);
  }

  /** The body of the innermost loop: the solidity test of one cell and its
      six neighbour tests, each a bounds test on that side or a look at the
      neighbour. */
  method WriteCell(g: TerrainData, ghost view: GridView, p: Vec3, transparent: set<int>,
                   vertices: seq<Vec3>, indices: seq<int>, uvs: seq<UvRef>, indicesCounter: int,
                   ghost faces: seq<Face>)
    returns (vertices': seq<Vec3>, indices': seq<int>, uvs': seq<UvRef>, indicesCounter': int,
             ghost faces': seq<Face>)
    requires g.Valid() && g.Mirrors(view) && InGrid(view, p)
    requires Emitted(faces, vertices, indices, uvs) && indicesCounter == 4 * |faces|
    ensures faces' == faces + CellFaces(view, p, transparent)
    ensures Emitted(faces', vertices', indices', uvs') && indicesCounter' == 4 * |faces'|
  {
    var voxelData := g.voxelData;
    var (x, y, z) := (p.x, p.y, p.z);
    var cell := voxelData[x, y, z];
    if cell.None? || cell.value.blockId < 0 {
      return vertices, indices, uvs, indicesCounter, faces;
    }
    var v := cell.value;
    var left := SideTest(g, view, p, LEFT, transparent);
    var right := SideTest(g, view, p, RIGHT, transparent);
    var top := SideTest(g, view, p, TOP, transparent);
    var bottom := SideTest(g, view, p, BOTTOM, transparent);
    var back := SideTest(g, view, p, BACK, transparent);
    var front := SideTest(g, view, p, FRONT, transparent);
    FaceIfIsSideFace(view, p, LEFT, transparent, left);
    FaceIfIsSideFace(view, p, RIGHT, transparent, right);
    FaceIfIsSideFace(view, p, TOP, transparent, top);
    FaceIfIsSideFace(view, p, BOTTOM, transparent, bottom);
    FaceIfIsSideFace(view, p, BACK, transparent, back);
    FaceIfIsSideFace(view, p, FRONT, transparent, front);
    CellFacesUnrolled(view, p, transparent);
    vertices', indices', uvs', indicesCounter', faces' :=
      WriteSides(left, right, top, bottom, back, front, p, v, transparent,
                 vertices, indices, uvs, indicesCounter, faces);
  }

  /** The innermost loop of `GenerateMesh`: the cells (x, y, 0 .. depth-1). */
  method WriteRun(g: TerrainData, ghost view: GridView, x: int, y: int, transparent: set<int>,
                  vertices: seq<Vec3>, indices: seq<int>, uvs: seq<UvRef>, indicesCounter: int,
                  ghost faces: seq<Face>)
    returns (vertices': seq<Vec3>, indices': seq<int>, uvs': seq<UvRef>, indicesCounter': int,
             ghost faces': seq<Face>)
    requires g.Valid() && g.Mirrors(view) && 0 <= x < g.width && 0 <= y < g.height
    requires Emitted(faces, vertices, indices, uvs) && indicesCounter == 4 * |faces|
    ensures faces' == faces + RunFaces(view, x, y, g.depth, transparent)
    ensures Emitted(faces', vertices', indices', uvs') && indicesCounter' == 4 * |faces'|
  {
    vertices', indices', uvs', indicesCounter', faces' := vertices, indices, uvs, indicesCounter, faces;
    var z := 0;
    while z < g.depth
      invariant 0 <= z <= g.depth
      invariant faces' == faces + RunFaces(view, x, y, z, transparent)
      invariant Emitted(faces', vertices', indices', uvs') && indicesCounter' == 4 * |faces'|
    {
      vertices', indices', uvs', indicesCounter', faces' :=
        WriteCell(g, view, Vec3(x, y, z), transparent, vertices', indices', uvs', indicesCounter', faces');
      AppendAssoc(faces, RunFaces(view, x, y, z, transparent), CellFaces(view, Vec3(x, y, z), transparent));
      z := z + 1;
    }
  }

  /** The middle loop of `GenerateMesh`: the cells (x, 0 .. height-1, *). */
  method WriteColumn(g: TerrainData, ghost view: GridView, x: int, transparent: set<int>,
                     vertices: seq<Vec3>, indices: seq<int>, uvs: seq<UvRef>, indicesCounter: int,
                     ghost faces: seq<Face>)
    returns (vertices': seq<Vec3>, indices': seq<int>, uvs': seq<UvRef>, indicesCounter': int,
             ghost faces': seq<Face>)
    requires g.Valid() && g.Mirrors(view) && 0 <= x < g.width
    requires Emitted(faces, vertices, indices, uvs) && indicesCounter == 4 * |faces|
    ensures faces' == faces + ColumnFaces(view, x, g.height, transparent)
    ensures Emitted(faces', vertices', indices', uvs') && indicesCounter' == 4 * |faces'|
  {
    vertices', indices', uvs', indicesCounter', faces' := vertices, indices, uvs, indicesCounter, faces;
    var y := 0;
    while y < g.height
      invariant 0 <= y <= g.height
      invariant faces' == faces + ColumnFaces(view, x, y, transparent)
      invariant Emitted(faces', vertices', indices', uvs') && indicesCounter' == 4 * |faces'|
    {
      vertices', indices', uvs', indicesCounter', faces' :=
        WriteRun(g, view, x, y, transparent, vertices', indices', uvs', indicesCounter', faces');
      AppendAssoc(faces, ColumnFaces(view, x, y, transparent), RunFaces(view, x, y, g.depth, transparent));
      y := y + 1;
    }
  }

  /** The culling and emission pass of `GenerateMesh`: visits every cell in
      x, y, z order and writes exactly the faces of `Faces`; the counter
      always equals the number of vertices written. */
  method GenerateMesh(g: TerrainData, transparent: set<int>)
    returns (vertices: seq<Vec3>, indices: seq<int>, uvs: seq<UvRef>)
    requires g.Valid()
    ensures Emitted(Faces(g.View(), transparent), vertices, indices, uvs)
  {
    ghost var view := g.View();
    var indicesCounter := 0;
    vertices, indices, uvs := [], [], [];
    ghost var faces: seq<Face> := [];

    var x := 0;
    while x < g.width
      invariant 0 <= x <= g.width
      invariant faces == SliceFaces(view, x, transparent)
      invariant Emitted(faces, vertices, indices, uvs) && indicesCounter == 4 * |faces|
    {
      vertices, indices, uvs, indicesCounter, faces :=
        WriteColumn(g, view, x, transparent, vertices, indices, uvs, indicesCounter, faces);
      x := x + 1;
    }
    assert faces == Faces(view, transparent);
    assert g.View() == view;
  }
}
