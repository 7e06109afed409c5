/** What the mesh of a chunk contains: exactly one face for every exposed
    side of every solid cell, in loop order, and index, vertex and UV lists
    whose entries are tied face by face to those faces. */
module MeshProperties {

  import opened Wrappers
  import opened TerrainGrid
  import opened Blocks
  import opened ChunkFaces
  import opened ChunkMesh

  /** `f` is the face that the cell at `f.pos` shows on its side `f.side`. */
  ghost predicate Shown(g: GridView, f: Face, transparent: set<int>)
  {
    Emits(g, f.pos, f.side, transparent) && f == MakeFace(g, f.pos, f.side, transparent)
  }

  // ---------------------------------------------------------------------
  // Culling: the faces of the chunk are exactly the shown faces.

  lemma {:induction false} FaceIfMember(g: GridView, p: Vec3, s: BlockFace, transparent: set<int>, f: Face)
    requires InGrid(g, p) && IsSolid(Cell(g, p))
    ensures f in FaceIf(g, p, s, transparent) <==> f.pos == p && f.side == s && Shown(g, f, transparent)
  {
  }

  lemma {:induction false} SidesUpToMember(g: GridView, p: Vec3, transparent: set<int>, k: int, f: Face)
    requires InGrid(g, p) && IsSolid(Cell(g, p)) && 0 <= k <= 6
    ensures f in SidesUpTo(g, p, transparent, k) <==> f.pos == p && Slot(f.side) < k && Shown(g, f, transparent)
  {
    if k > 0 {
      SidesUpToMember(g, p, transparent, k - 1, f);
      FaceIfMember(g, p, SlotSide(k - 1), transparent, f);
      assert Slot(f.side) == k - 1 ==> f.side == SlotSide(k - 1);
    }
  }

  lemma {:induction false} CellFacesMember(g: GridView, p: Vec3, transparent: set<int>, f: Face)
    requires InGrid(g, p)
    ensures f in CellFaces(g, p, transparent) <==> f.pos == p && Shown(g, f, transparent)
  {
    if IsSolid(Cell(g, p)) {
      SidesUpToMember(g, p, transparent, 6, f);
    }
  }

  /** `f` is one of the faces listed for its own cell. */
  ghost predicate FromOwnCell(g: GridView, f: Face, transparent: set<int>)
  {
    InGrid(g, f.pos) && f in CellFaces(g, f.pos, transparent)
  }

  lemma {:induction false} RunFacesMember(g: GridView, x: int, y: int, z: int, transparent: set<int>, f: Face)
    requires 0 <= x < g.width && 0 <= y < g.height && 0 <= z <= g.depth
    ensures f in RunFaces(g, x, y, z, transparent) <==>
              f.pos.x == x && f.pos.y == y && 0 <= f.pos.z < z && FromOwnCell(g, f, transparent)
  {
    if z > 0 {
      RunFacesMember(g, x, y, z - 1, transparent, f);
      if f in CellFaces(g, Vec3(x, y, z - 1), transparent) {
        CellFacesPos(g, Vec3(x, y, z - 1), transparent, f);
      }
    }
  }

  lemma {:induction false} ColumnFacesMember(g: GridView, x: int, y: int, transparent: set<int>, f: Face)
    requires 0 <= x < g.width && 0 <= y <= g.height
    ensures f in ColumnFaces(g, x, y, transparent) <==>
              f.pos.x == x && 0 <= f.pos.y < y && FromOwnCell(g, f, transparent)
  {
    if y > 0 {
      ColumnFacesMember(g, x, y - 1, transparent, f);
      RunFacesMember(g, x, y - 1, g.depth, transparent, f);
    }
  }

  lemma {:induction false} SliceFacesMember(g: GridView, x: int, transparent: set<int>, f: Face)
    requires 0 <= x <= g.width
    ensures f in SliceFaces(g, x, transparent) <==> 0 <= f.pos.x < x && FromOwnCell(g, f, transparent)
  {
    if x > 0 {
      SliceFacesMember(g, x - 1, transparent, f);
      ColumnFacesMember(g, x - 1, g.height, transparent, f);
    }
  }

  lemma {:induction false} RunFacesPos(g: GridView, x: int, y: int, z: int, transparent: set<int>, f: Face)
    requires 0 <= x < g.width && 0 <= y < g.height && 0 <= z <= g.depth
    requires f in RunFaces(g, x, y, z, transparent)
    ensures f.pos.x == x && f.pos.y == y && 0 <= f.pos.z < z
  {
    RunFacesMember(g, x, y, z, transparent, f);
  }

  lemma {:induction false} ColumnFacesPos(g: GridView, x: int, y: int, transparent: set<int>, f: Face)
    requires 0 <= x < g.width && 0 <= y <= g.height
    requires f in ColumnFaces(g, x, y, transparent)
    ensures f.pos.x == x && 0 <= f.pos.y < y
  {
    ColumnFacesMember(g, x, y, transparent, f);
  }

  lemma {:induction false} SliceFacesPos(g: GridView, x: int, transparent: set<int>, f: Face)
    requires 0 <= x <= g.width
    requires f in SliceFaces(g, x, transparent)
    ensures 0 <= f.pos.x < x
  {
    SliceFacesMember(g, x, transparent, f);
  }

  lemma {:induction false} CellFacesPos(g: GridView, p: Vec3, transparent: set<int>, f: Face)
    requires InGrid(g, p)
    requires f in CellFaces(g, p, transparent)
    ensures f.pos == p
  {
    SidesUpToMember(g, p, transparent, 6, f);
  }

  /** A face is in the chunk's mesh if and only if its cell is solid, its
      side is on the border or faces a missing, air or transparent
      neighbour, and it carries that cell's block, rotated texture face and
      transparency. */
  lemma {:induction false} FacesExactlyShown(g: GridView, transparent: set<int>, f: Face)
    ensures f in Faces(g, transparent) <==> Shown(g, f, transparent)
  {
    SliceFacesMember(g, g.width, transparent, f);
    if InGrid(g, f.pos) {
      CellFacesMember(g, f.pos, transparent, f);
    }
  }

  /** Air and empty cells contribute nothing. */
  lemma {:induction false} AirShowsNothing(g: GridView, p: Vec3, transparent: set<int>)
    requires !IsSolid(Cell(g, p))
    ensures forall f :: f in Faces(g, transparent) ==> f.pos != p
  {
    forall f | f in Faces(g, transparent)
      ensures f.pos != p
    {
      FacesExactlyShown(g, transparent, f);
    }
  }

  /** A side covered by a solid, non-transparent neighbour inside the chunk
      is culled. */
  lemma {:induction false} CoveredSideHidden(g: GridView, p: Vec3, s: BlockFace, transparent: set<int>)
    requires InGrid(g, p) && InGrid(g, Add(p, Normal(s)))
    requires IsSolid(Cell(g, Add(p, Normal(s)))) && Cell(g, Add(p, Normal(s))).value.blockId !in transparent
    ensures forall f :: f in Faces(g, transparent) ==> f.pos != p || f.side != s
  {
    forall f | f in Faces(g, transparent)
      ensures f.pos != p || f.side != s
    {
      FacesExactlyShown(g, transparent, f);
    }
  }

  /** A solid cell always shows its sides on the chunk's border, and any
      side whose neighbour is open. */
  lemma {:induction false} ExposedSideShown(g: GridView, p: Vec3, s: BlockFace, transparent: set<int>)
    requires InGrid(g, p) && IsSolid(Cell(g, p))
    requires AtEdge(g, p, s) || Open(Cell(g, Add(p, Normal(s))), transparent)
    ensures MakeFace(g, p, s, transparent) in Faces(g, transparent)
  {
    FacesExactlyShown(g, transparent, MakeFace(g, p, s, transparent));
  }

  // ---------------------------------------------------------------------
  // Order: faces come in x, y, z, side order, so no side is emitted twice.

  /** Face `a` comes strictly before `b` in the loop order x, y, z, then
      the side order LEFT, RIGHT, TOP, BOTTOM, BACK, FRONT. */
  predicate Before(a: Face, b: Face)
  {
    || a.pos.x < b.pos.x
    || (a.pos.x == b.pos.x && a.pos.y < b.pos.y)
    || (a.pos.x == b.pos.x && a.pos.y == b.pos.y && a.pos.z < b.pos.z)
    || (a.pos == b.pos && Slot(a.side) < Slot(b.side))
  }

  /** Each face comes before the next one. */
  predicate Chained(fs: seq<Face>)
  {
    |fs| <= 1 || (Before(fs[0], fs[1]) && Chained(fs[1..]))
  }

  /** Every face comes before every later one. */
  predicate InOrder(fs: seq<Face>)
  {
    forall i, j :: 0 <= i < j < |fs| ==> Before(fs[i], fs[j])
  }

  lemma {:induction false} BeforeTransitive(a: Face, b: Face, c: Face)
    requires Before(a, b) && Before(b, c)
    ensures Before(a, c)
  {
  }

  /** Two chains joined stay a chain when the last of the first comes
      before the first of the second. */
  lemma {:induction false} AppendChained(a: seq<Face>, b: seq<Face>)
    requires Chained(a) && Chained(b)
    requires |a| > 0 && |b| > 0 ==> Before(a[|a| - 1], b[0])
    ensures Chained(a + b)
  {
    if |a| == 0 {
      assert a + b == b;
    } else if |a| == 1 {
      assert (a + b)[1..] == b;
    } else {
      AppendChained(a[1..], b);
      assert (a + b)[1..] == a[1..] + b;
    }
  }

  /** A chain is ordered throughout, by transitivity. */
  lemma {:induction false} ChainedInOrder(fs: seq<Face>)
    requires Chained(fs)
    ensures InOrder(fs)
  {
    if |fs| > 1 {
      ChainedInOrder(fs[1..]);
      forall j | 1 < j < |fs|
        ensures Before(fs[0], fs[j])
      {
        assert fs[1..][0] == fs[1] && fs[1..][j - 1] == fs[j];
        BeforeTransitive(fs[0], fs[1], fs[j]);
      }
      forall i, j | 0 < i < j < |fs|
        ensures Before(fs[i], fs[j])
      {
        assert fs[1..][i - 1] == fs[i] && fs[1..][j - 1] == fs[j];
      }
    }
  }

  lemma {:induction false} SidesUpToChained(g: GridView, p: Vec3, transparent: set<int>, k: int)
    requires InGrid(g, p) && IsSolid(Cell(g, p)) && 0 <= k <= 6
    ensures Chained(SidesUpTo(g, p, transparent, k))
  {
    if k > 0 {
      var sides, last := SidesUpTo(g, p, transparent, k - 1), FaceIf(g, p, SlotSide(k - 1), transparent);
      SidesUpToChained(g, p, transparent, k - 1);
      if |sides| > 0 && |last| > 0 {
        SidesUpToMember(g, p, transparent, k - 1, sides[|sides| - 1]);
        FaceIfMember(g, p, SlotSide(k - 1), transparent, last[0]);
      }
      AppendChained(sides, last);
    }
  }

  lemma {:induction false} CellFacesChained(g: GridView, p: Vec3, transparent: set<int>)
    requires InGrid(g, p)
    ensures Chained(CellFaces(g, p, transparent))
  {
    if IsSolid(Cell(g, p)) {
      SidesUpToChained(g, p, transparent, 6);
    }
  }

  lemma {:induction false} RunThenCell(g: GridView, x: int, y: int, z: int, transparent: set<int>)
    requires 0 <= x < g.width && 0 <= y < g.height && 0 <= z < g.depth
    ensures var run, cell := RunFaces(g, x, y, z, transparent), CellFaces(g, Vec3(x, y, z), transparent);
              |run| > 0 && |cell| > 0 ==> Before(run[|run| - 1], cell[0])
  {
    var run, cell := RunFaces(g, x, y, z, transparent), CellFaces(g, Vec3(x, y, z), transparent);
    if |run| > 0 && |cell| > 0 {
      RunFacesPos(g, x, y, z, transparent, run[|run| - 1]);
      CellFacesPos(g, Vec3(x, y, z), transparent, cell[0]);
    }
  }

  lemma {:induction false} RunFacesChained(g: GridView, x: int, y: int, z: int, transparent: set<int>)
    requires 0 <= x < g.width && 0 <= y < g.height && 0 <= z <= g.depth
    ensures Chained(RunFaces(g, x, y, z, transparent))
  {
    if z > 0 {
      RunFacesChained(g, x, y, z - 1, transparent);
      CellFacesChained(g, Vec3(x, y, z - 1), transparent);
      RunThenCell(g, x, y, z - 1, transparent);
      AppendChained(RunFaces(g, x, y, z - 1, transparent), CellFaces(g, Vec3(x, y, z - 1), transparent));
    }
  }

  lemma {:induction false} ColumnFacesChained(g: GridView, x: int, y: int, transparent: set<int>)
    requires 0 <= x < g.width && 0 <= y <= g.height
    ensures Chained(ColumnFaces(g, x, y, transparent))
  {
    if y > 0 {
      var column, run := ColumnFaces(g, x, y - 1, transparent), RunFaces(g, x, y - 1, g.depth, transparent);
      ColumnFacesChained(g, x, y - 1, transparent);
      RunFacesChained(g, x, y - 1, g.depth, transparent);
      if |column| > 0 && |run| > 0 {
        ColumnFacesPos(g, x, y - 1, transparent, column[|column| - 1]);
        RunFacesPos(g, x, y - 1, g.depth, transparent, run[0]);
      }
      AppendChained(column, run);
    }
  }

  lemma {:induction false} SliceFacesChained(g: GridView, x: int, transparent: set<int>)
    requires 0 <= x <= g.width
    ensures Chained(SliceFaces(g, x, transparent))
  {
    if x > 0 {
      var slice, column := SliceFaces(g, x - 1, transparent), ColumnFaces(g, x - 1, g.height, transparent);
      SliceFacesChained(g, x - 1, transparent);
      ColumnFacesChained(g, x - 1, g.height, transparent);
      if |slice| > 0 && |column| > 0 {
        SliceFacesPos(g, x - 1, transparent, slice[|slice| - 1]);
        ColumnFacesPos(g, x - 1, g.height, transparent, column[0]);
      }
      AppendChained(slice, column);
    }
  }

  /** The chunk's faces are in loop order; in particular no cell side
      appears twice. */
  lemma {:induction false} FacesInOrder(g: GridView, transparent: set<int>)
    ensures InOrder(Faces(g, transparent))
    ensures forall i, j :: 0 <= i < j < |Faces(g, transparent)| ==>
              (Faces(g, transparent)[i].pos, Faces(g, transparent)[i].side)
              != (Faces(g, transparent)[j].pos, Faces(g, transparent)[j].side)
  {
    SliceFacesChained(g, g.width, transparent);
    ChainedInOrder(Faces(g, transparent));
  }

  // ---------------------------------------------------------------------
  // The output lists, entry by entry.

  /** Vertex `4k + i` is corner `i` of face k's side template, moved to
      face k's cell. */
  lemma {:induction false} VerticesAt(fs: seq<Face>, k: int, i: int)
    requires 0 <= k < |fs| && 0 <= i < 4
    ensures VerticesOf(fs)[4 * k + i] == Add(SideVertices(fs[k].side)[i], fs[k].pos)
  {
    var n := |fs| - 1;
    var front := fs[..n];
    assert VerticesOf(fs) == VerticesOf(front) + FaceVertices(fs[n]);
    if k < n {
      VerticesAt(front, k, i);
      assert front[k] == fs[k];
      assert VerticesOf(fs)[4 * k + i] == VerticesOf(front)[4 * k + i];
    } else {
      assert k == n;
      assert VerticesOf(fs)[4 * k + i] == FaceVertices(fs[n])[i];
    }
  }

  /** UV slot `4k + i` is corner `i` of the texture face shown by face k. */
  lemma {:induction false} UvsAt(fs: seq<Face>, k: int, i: int)
    requires 0 <= k < |fs| && 0 <= i < 4
    ensures UvsOf(fs)[4 * k + i] == UvRef(fs[k].blockId, fs[k].uvFace, i)
  {
    var n := |fs| - 1;
    var front := fs[..n];
    assert UvsOf(fs) == UvsOf(front) + FaceUvs(fs[n]);
    if k < n {
      UvsAt(front, k, i);
      assert front[k] == fs[k];
      assert UvsOf(fs)[4 * k + i] == UvsOf(front)[4 * k + i];
    } else {
      assert k == n;
      assert UvsOf(fs)[4 * k + i] == FaceUvs(fs[n])[i];
    }
  }

  /** The entries of the index list before the last face's six are those
      of the list without it. */
  lemma {:induction false} IndicesOfPrefix(fs: seq<Face>, j: int)
    requires 0 < |fs| && 0 <= j < 6 * (|fs| - 1)
    ensures IndicesOf(fs)[j] == IndicesOf(fs[..|fs| - 1])[j]
  {
  }

  /** The last face's six entries close the index list. */
  lemma {:induction false} IndicesOfLast(fs: seq<Face>, i: int)
    requires 0 < |fs| && 0 <= i < 6
    ensures IndicesOf(fs)[6 * (|fs| - 1) + i] ==
              Tag(4 * (|fs| - 1) + SideIndices(fs[|fs| - 1].side)[i], fs[|fs| - 1].transparent)
  {
    var n := |fs| - 1;
    var face := FaceIndices(fs[n], 4 * n);
    assert IndicesOf(fs) == IndicesOf(fs[..n]) + face;
    assert IndicesOf(fs)[6 * n + i] == face[i];
    assert face[i] == Tag(4 * n + SideIndices(fs[n].side)[i], fs[n].transparent);
  }

  /** Index `6k + i` is entry `i` of face k's side template, offset by the
      4k vertices written before face k and negated for a transparent
      block. */
  lemma {:induction false} IndicesAt(fs: seq<Face>, k: int, i: int)
    requires 0 <= k < |fs| && 0 <= i < 6
    ensures IndicesOf(fs)[6 * k + i] == Tag(4 * k + SideIndices(fs[k].side)[i], fs[k].transparent)
  {
    var n := |fs| - 1;
    if k < n {
      IndicesOfPrefix(fs, 6 * k + i);
      IndicesAt(fs[..n], k, i);
      assert fs[..n][k] == fs[k];
    } else {
      IndicesOfLast(fs, i);
    }
  }

  /** The vertex numbers named by the six indices of face k, sign removed. */
  function FaceTargets(fs: seq<Face>, k: int): (ts: set<nat>)
    requires 0 <= k < |fs|
    ensures forall j :: 6 * k <= j < 6 * k + 6 ==> Abs(IndicesOf(fs)[j]) in ts
  {
    set j | 6 * k <= j < 6 * k + 6 :: Abs(IndicesOf(fs)[j])
  }

  /** The indices of face k name exactly the four vertices of face k, so
      every index, sign removed, is below the vertex count and every vertex
      is used. */
  lemma {:induction false} IndicesReferenceOwnFace(fs: seq<Face>, k: int)
    requires 0 <= k < |fs|
    ensures forall c :: c in FaceTargets(fs, k) <==> 4 * k <= c < 4 * k + 4
    ensures 4 * k + 4 <= |VerticesOf(fs)|
  {
    var t := SideIndices(fs[k].side);
    forall c | c in FaceTargets(fs, k)
      ensures 4 * k <= c < 4 * k + 4
    {
      var j :| 6 * k <= j < 6 * k + 6 && Abs(IndicesOf(fs)[j]) == c;
      IndicesAt(fs, k, j - 6 * k);
    }
    forall c | 4 * k <= c < 4 * k + 4
      ensures c in FaceTargets(fs, k)
    {
      assert c - 4 * k in t;
      var i :| 0 <= i < 6 && t[i] == c - 4 * k;
      IndicesAt(fs, k, i);
      assert Abs(IndicesOf(fs)[6 * k + i]) == c;
    }
  }

  /** The sign of an index: negative exactly when its face is transparent,
      except that the vertex numbered 0 cannot be negated, so an index of
      the very first face that names vertex 0 stays 0 even when transparent. */
  lemma {:induction false} IndexSign(fs: seq<Face>, k: int, i: int)
    requires 0 <= k < |fs| && 0 <= i < 6
    ensures IndicesOf(fs)[6 * k + i] < 0 <==> fs[k].transparent && (k > 0 || SideIndices(fs[k].side)[i] != 0)
    ensures !fs[k].transparent ==> IndicesOf(fs)[6 * k + i] >= 0
  {
    IndicesAt(fs, k, i);
  }

  /** When the first face of the mesh is transparent, one of its indices is
      0 and so is not recognised as transparent by its sign. */
  lemma {:induction false} FirstTransparentFaceLeaks(fs: seq<Face>)
    requires |fs| > 0 && fs[0].transparent
    ensures exists i :: 0 <= i < 6 && IndicesOf(fs)[i] == 0
  {
    var t := SideIndices(fs[0].side);
    assert 0 in t;
    var i :| 0 <= i < 6 && t[i] == 0;
    IndicesAt(fs, 0, i);
  }

  /** Marking a transparent index as `-(v + 1)` instead of `-v` keeps every
      vertex number, 0 included, recoverable and its transparency readable
      from the sign. */
  function TagShifted(v: nat, transparent: bool): (t: int)
    ensures t < 0 <==> transparent
    ensures UntagShifted(t) == v
  {
    if transparent then -(v as int) - 1 else v
  }

  function UntagShifted(t: int): (v: nat)
    ensures t >= 0 ==> v == t
  {
    if t < 0 then -t - 1 else t
  }
}
