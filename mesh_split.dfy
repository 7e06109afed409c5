/** The last step of mesh generation: the vertex, index and UV lists of a
    chunk are cut into meshes of at most 65000 vertices, and each mesh's
    indices are rebased to its first vertex and sorted by sign into an
    opaque and a transparent triangle list. */
module MeshSplit {

  import opened ChunkFaces
  import opened ChunkMesh
  import opened MeshProperties

  /** The most vertices one mesh receives. */
  const MaxVertices: int := 65000

  /** The most faces one mesh receives: `MaxVertices` at 4 vertices per
      face. */
  const MaxFaces: int := 16250

  /** What one generation pass hands to the main thread per mesh. */
  datatype MeshData = MeshData(vertices: seq<Vec3>, triangles: seq<int>, transparentTriangles: seq<int>, uvs: seq<UvRef>)

  /** `Mathf.Min` on integers. */
  function Min(a: int, b: int): int
  {
    if a < b then a else b
  }

  /** `s.Skip(start).Take(count)`: the entries from `start` on, at most
      `count` of them; both operations stop quietly at the end of `s`. */
  function Window<T>(s: seq<T>, start: nat, count: nat): (w: seq<T>)
    ensures start + count <= |s| ==> w == s[start..start + count]
    ensures start <= |s| < start + count ==> w == s[start..]
    ensures |s| < start ==> w == []
  {
    var from := Min(start, |s|);
    s[from .. Min(from + count, |s|)]
  }

  /** The vertex count of the next mesh: what is left, at most
      `MaxVertices`, rounded down to a multiple of 4 (whole faces). */
  function VerticesToSelect(verticeCount: int): (n: int)
    requires verticeCount > 0
    ensures 0 <= n <= verticeCount && n <= MaxVertices && n % 4 == 0
    ensures verticeCount >= 4 ==> n > 0
    ensures verticeCount >= MaxVertices ==> n == MaxVertices
    ensures verticeCount < MaxVertices && verticeCount % 4 == 0 ==> n == verticeCount
    ensures verticeCount % 4 == 0 ==> n == 4 * Min(verticeCount / 4, MaxFaces)
  {
    var m := Min(verticeCount, MaxVertices);
    m - m % 4
  }

  /** The opaque triangle list made from `selected`: the non-negative
      entries, in order, less `base`. */
  function OpaqueOf(selected: seq<int>, base: int): seq<int>
  {
    if selected == [] then []
    else
      var i := selected[|selected| - 1];
      OpaqueOf(selected[..|selected| - 1], base) + (if i < 0 then [] else [i - base])
  }

  /** The transparent triangle list made from `selected`: the negative
      entries, in order, made positive and less `base`. */
  function TransparentOf(selected: seq<int>, base: int): seq<int>
  {
    if selected == [] then []
    else
      var i := selected[|selected| - 1];
      TransparentOf(selected[..|selected| - 1], base) + (if i < 0 then [Abs(i) - base] else [])
  }

  /** The faces each mesh takes, as (first face, face count) pairs, once
      the first `facesAlreadySelected` of `faceCount` faces are used: the
      next faces, at most `MaxFaces` of them, until none is left. */
  function Ranges(faceCount: nat, facesAlreadySelected: nat): seq<(nat, nat)>
    requires facesAlreadySelected <= faceCount
    decreases faceCount - facesAlreadySelected
  {
    if facesAlreadySelected == faceCount then []
    else
      var b := Min(faceCount - facesAlreadySelected, MaxFaces);
      [(facesAlreadySelected, b)] + Ranges(faceCount, facesAlreadySelected + b)
  }

  /** The mesh made of faces `a` to `a + b - 1`: their 4 vertices and 4
      UVs apiece, and their 6 indices apiece split by sign and rebased to
      the mesh's first vertex. */
  function Cut(vertices: seq<Vec3>, indices: seq<int>, uvs: seq<UvRef>, a: nat, b: nat): MeshData
  {
    var selected := Window(indices, 6 * a, 6 * b);
    MeshData(Window(vertices, 4 * a, 4 * b),
             OpaqueOf(selected, 4 * a),
             TransparentOf(selected, 4 * a),
             Window(uvs, 4 * a, 4 * b))
  }

  /** All meshes of a chunk, one per range: a chunk without faces gets
      no mesh at all. */
  function Split(vertices: seq<Vec3>, indices: seq<int>, uvs: seq<UvRef>): (ms: seq<MeshData>)
    requires |vertices| % 4 == 0
    ensures ms == [] <==> vertices == []
  {
    RangesEnd(|vertices| / 4, 0);
    var rs := Ranges(|vertices| / 4, 0);
    seq(|rs|, j requires 0 <= j < |rs| => Cut(vertices, indices, uvs, rs[j].0, rs[j].1))
  }

  /** The "preprocess indices" loop: each selected index goes to the
      transparent list (sign removed) when negative, to the opaque list
      otherwise, rebased by the vertices of the earlier meshes. */
  method PreprocessIndices(selectedTriangles: seq<int>, verticesAlreadySelected: int)
    returns (transparentTriangles: seq<int>, nonTransparentTriangles: seq<int>)
    ensures transparentTriangles == TransparentOf(selectedTriangles, verticesAlreadySelected)
    ensures nonTransparentTriangles == OpaqueOf(selectedTriangles, verticesAlreadySelected)
  {
    transparentTriangles, nonTransparentTriangles := [], [];
    for i := 0 to |selectedTriangles|
      invariant transparentTriangles == TransparentOf(selectedTriangles[..i], verticesAlreadySelected)
      invariant nonTransparentTriangles == OpaqueOf(selectedTriangles[..i], verticesAlreadySelected)
    {
      assert selectedTriangles[..i + 1][..i] == selectedTriangles[..i];
      if selectedTriangles[i] < 0 {
        transparentTriangles := transparentTriangles + [Abs(selectedTriangles[i]) - verticesAlreadySelected];
      } else {
        nonTransparentTriangles := nonTransparentTriangles + [selectedTriangles[i] - verticesAlreadySelected];
      }
    }
    assert selectedTriangles[..|selectedTriangles|] == selectedTriangles;
  }

  /** Where the ranges from face `a` on sit inside a longer list of
      ranges, the next one takes the next faces, at most `MaxFaces`. */
  lemma RangesStep(faceCount: nat, a: nat, rs: seq<(nat, nat)>, k: nat)
    requires a <= faceCount && k <= |rs| && rs[k..] == Ranges(faceCount, a)
    ensures k == |rs| <==> a == faceCount
    ensures k < |rs| ==> rs[k] == (a, Min(faceCount - a, MaxFaces))
                         && rs[k + 1..] == Ranges(faceCount, a + Min(faceCount - a, MaxFaces))
  {
    if k < |rs| {
      assert rs[k] == rs[k..][0];
      assert rs[k + 1..] == rs[k..][1..];
    }
  }

  /** A prefix one longer is the shorter prefix and the next entry. */
  lemma PrefixSnoc<T>(s: seq<T>, k: nat)
    requires k < |s|
    ensures s[..k + 1] == s[..k] + [s[k]]
  {
  }

  /** One pass of the mesh-data loop of `GenerateMesh`: the next mesh and
      the vertex and index counts it used. `a` is the number of faces
      already used, `faceCount` the number of faces in all. */
  method NextMesh(vertices: seq<Vec3>, indices: seq<int>, uvs: seq<UvRef>,
                  verticeCount: int, verticesAlreadySelected: int, trianglesAlreadySelected: int,
                  ghost faceCount: nat, ghost a: nat)
    returns (meshData: MeshData, verticesToSelect: int, trianglesToSelect: int)
    requires a < faceCount && |vertices| == 4 * faceCount
    requires verticesAlreadySelected == 4 * a && trianglesAlreadySelected == 6 * a
    requires verticeCount == |vertices| - verticesAlreadySelected
    ensures verticesToSelect == 4 * Min(faceCount - a, MaxFaces)
    ensures trianglesToSelect == 6 * Min(faceCount - a, MaxFaces)
    ensures meshData == Cut(vertices, indices, uvs, a, Min(faceCount - a, MaxFaces))
  {
    verticesToSelect := Min(verticeCount, MaxVertices);
    verticesToSelect := verticesToSelect - verticesToSelect % 4;
    assert verticesToSelect == VerticesToSelect(verticeCount);
    trianglesToSelect := (verticesToSelect / 4) * 6;

    var selectedVertices := Window(vertices, verticesAlreadySelected, verticesToSelect);
    var selectedUvs := Window(uvs, verticesAlreadySelected, verticesToSelect);
    var selectedTriangles := Window(indices, trianglesAlreadySelected, trianglesToSelect);

    var transparentTriangles, nonTransparentTriangles := PreprocessIndices(selectedTriangles, verticesAlreadySelected);
    meshData := MeshData(selectedVertices, nonTransparentTriangles, transparentTriangles, selectedUvs);
  }

  /** The mesh-data loop of `GenerateMesh`. The source loops while
      vertices remain and takes a multiple of 4 each time, so it ends only
      when the vertex count is a multiple of 4, which four vertices per
      face guarantee. */
  method SplitMesh(vertices: seq<Vec3>, indices: seq<int>, uvs: seq<UvRef>) returns (meshDataList: seq<MeshData>)
    requires |vertices| % 4 == 0
    ensures meshDataList == Split(vertices, indices, uvs)
  {
    var verticeCount := |vertices|;
    var verticesAlreadySelected := 0;
    var trianglesAlreadySelected := 0;
    ghost var faceCount := |vertices| / 4;
    ghost var facesAlreadySelected := 0;
    ghost var rs := Ranges(faceCount, 0);
    ghost var ms := Split(vertices, indices, uvs);
    ghost var k := 0;
    meshDataList := [];
    while verticeCount > 0
      invariant facesAlreadySelected <= faceCount && k <= |rs|
      invariant verticesAlreadySelected == 4 * facesAlreadySelected
      invariant trianglesAlreadySelected == 6 * facesAlreadySelected
      invariant verticeCount == |vertices| - verticesAlreadySelected
      invariant rs[k..] == Ranges(faceCount, facesAlreadySelected)
      invariant meshDataList == ms[..k]
      decreases verticeCount
    {
      var meshData, verticesToSelect, trianglesToSelect :=
        NextMesh(vertices, indices, uvs, verticeCount, verticesAlreadySelected, trianglesAlreadySelected,
                 faceCount, facesAlreadySelected);
      RangesStep(faceCount, facesAlreadySelected, rs, k);
      PrefixSnoc(ms, k);

      trianglesAlreadySelected := trianglesAlreadySelected + trianglesToSelect;
      verticesAlreadySelected := verticesAlreadySelected + verticesToSelect;
      facesAlreadySelected := facesAlreadySelected + Min(faceCount - facesAlreadySelected, MaxFaces);
      meshDataList := meshDataList + [meshData];
      verticeCount := verticeCount - verticesToSelect;
      k := k + 1;
    }
    RangesStep(faceCount, facesAlreadySelected, rs, k);
    assert ms[..k] == ms;
  }

  // ---------------------------------------------------------------------
  // The index classification.

  /** Every selected index lands in exactly one of the two lists. */
  lemma {:induction false} ClassifyCounts(selected: seq<int>, base: int)
    ensures |OpaqueOf(selected, base)| + |TransparentOf(selected, base)| == |selected|
  {
    if selected != [] {
      ClassifyCounts(selected[..|selected| - 1], base);
    }
  }

  /** Every entry of either list comes from a selected index of the
      matching sign. */
  lemma {:induction false} ClassifiedFrom(selected: seq<int>, base: int, v: int)
    ensures v in OpaqueOf(selected, base) ==>
              exists j :: 0 <= j < |selected| && selected[j] >= 0 && v == selected[j] - base
    ensures v in TransparentOf(selected, base) ==>
              exists j :: 0 <= j < |selected| && selected[j] < 0 && v == Abs(selected[j]) - base
  {
    if selected != [] {
      var n := |selected| - 1;
      var front := selected[..n];
      ClassifiedFrom(front, base, v);
      if v in OpaqueOf(front, base) {
        var j :| 0 <= j < n && front[j] >= 0 && v == front[j] - base;
        assert selected[j] == front[j];
      }
      if v in TransparentOf(front, base) {
        var j :| 0 <= j < n && front[j] < 0 && v == Abs(front[j]) - base;
        assert selected[j] == front[j];
      }
    }
  }

  /** Every selected index reaches the list of its sign. */
  lemma {:induction false} ClassifiedTo(selected: seq<int>, base: int, j: int)
    requires 0 <= j < |selected|
    ensures selected[j] >= 0 ==> selected[j] - base in OpaqueOf(selected, base)
    ensures selected[j] < 0 ==> Abs(selected[j]) - base in TransparentOf(selected, base)
  {
    var n := |selected| - 1;
    var front := selected[..n];
    if j < n {
      ClassifiedTo(front, base, j);
      assert front[j] == selected[j];
    }
  }

  /** The opaque list holds exactly the non-negative indices, rebased; the
      transparent list exactly the negative ones, made positive and
      rebased. */
  lemma ClassifyMembers(selected: seq<int>, base: int, v: int)
    ensures v in OpaqueOf(selected, base) <==>
              exists j :: 0 <= j < |selected| && selected[j] >= 0 && v == selected[j] - base
    ensures v in TransparentOf(selected, base) <==>
              exists j :: 0 <= j < |selected| && selected[j] < 0 && v == Abs(selected[j]) - base
  {
    ClassifiedFrom(selected, base, v);
    if exists j :: 0 <= j < |selected| && selected[j] >= 0 && v == selected[j] - base {
      var j :| 0 <= j < |selected| && selected[j] >= 0 && v == selected[j] - base;
      ClassifiedTo(selected, base, j);
    }
    if exists j :: 0 <= j < |selected| && selected[j] < 0 && v == Abs(selected[j]) - base {
      var j :| 0 <= j < |selected| && selected[j] < 0 && v == Abs(selected[j]) - base;
      ClassifiedTo(selected, base, j);
    }
  }

  /** When every selected index, sign removed, names one of the `n`
      vertices from `base` on, both lists hold only indices in [0, n). */
  lemma ClassifyInRange(selected: seq<int>, base: int, n: int)
    requires forall j :: 0 <= j < |selected| ==> base <= Abs(selected[j]) < base + n
    ensures forall v :: v in OpaqueOf(selected, base) ==> 0 <= v < n
    ensures forall v :: v in TransparentOf(selected, base) ==> 0 <= v < n
  {
    forall v | v in OpaqueOf(selected, base)
      ensures 0 <= v < n
    {
      ClassifiedFrom(selected, base, v);
    }
    forall v | v in TransparentOf(selected, base)
      ensures 0 <= v < n
    {
      ClassifiedFrom(selected, base, v);
    }
  }

  // ---------------------------------------------------------------------
  // The meshes.

  /** Range `j` starts at face `start`, `j` full ranges after `a`, and
      takes what is left of the faces, at most `MaxFaces`. */
  lemma {:induction false} RangesAt(faceCount: nat, a: nat, j: nat, start: int)
    requires a <= faceCount && j < |Ranges(faceCount, a)| && start == a + j * MaxFaces
    ensures start < faceCount
    ensures Ranges(faceCount, a)[j] == (start, Min(faceCount - start, MaxFaces))
    decreases j
  {
    if j > 0 {
      var b := Min(faceCount - a, MaxFaces);
      assert Ranges(faceCount, a)[j] == Ranges(faceCount, a + b)[j - 1];
      RangesAt(faceCount, a + b, j - 1, start);
    }
  }

  /** The ranges run out exactly when the faces do: the last one ends at
      the last face. */
  lemma {:induction false} RangesEnd(faceCount: nat, a: nat)
    requires a <= faceCount
    ensures var rs := Ranges(faceCount, a);
            && (rs == [] <==> a == faceCount)
            && (rs != [] ==> rs[|rs| - 1].0 + rs[|rs| - 1].1 == faceCount)
    decreases faceCount - a
  {
    if a < faceCount {
      var b := Min(faceCount - a, MaxFaces);
      var rest := Ranges(faceCount, a + b);
      RangesEnd(faceCount, a + b);
      if rest != [] {
        assert Ranges(faceCount, a)[|Ranges(faceCount, a)| - 1] == rest[|rest| - 1];
      }
    }
  }

  /** Mesh `j` is the one cut at face `j * MaxFaces`: every mesh before
      it took a full `MaxFaces` faces. */
  lemma SplitAt(vertices: seq<Vec3>, indices: seq<int>, uvs: seq<UvRef>, j: nat)
    requires |vertices| % 4 == 0 && j < |Split(vertices, indices, uvs)|
    ensures j * MaxFaces < |vertices| / 4
    ensures Split(vertices, indices, uvs)[j]
            == Cut(vertices, indices, uvs, j * MaxFaces, Min(|vertices| / 4 - j * MaxFaces, MaxFaces))
  {
    RangesAt(|vertices| / 4, 0, j, j * MaxFaces);
  }

  /** A cut inside the chunk takes exactly the vertices and UVs of its
      faces, and six indices per face split between its two lists. */
  lemma CutTakes(vertices: seq<Vec3>, indices: seq<int>, uvs: seq<UvRef>, faceCount: nat, a: nat, b: nat)
    requires |vertices| == 4 * faceCount && a + b <= faceCount
    ensures Cut(vertices, indices, uvs, a, b).vertices == vertices[4 * a..4 * (a + b)]
    ensures |uvs| == |vertices| ==> Cut(vertices, indices, uvs, a, b).uvs == uvs[4 * a..4 * (a + b)]
    ensures |indices| == 6 * faceCount ==>
              |Cut(vertices, indices, uvs, a, b).triangles| + |Cut(vertices, indices, uvs, a, b).transparentTriangles| == 6 * b
  {
    ClassifyCounts(Window(indices, 6 * a, 6 * b), 4 * a);
  }

  /** The vertices of the meshes, in mesh order. */
  function AllVertices(ms: seq<MeshData>): seq<Vec3>
  {
    if ms == [] then [] else AllVertices(ms[..|ms| - 1]) + ms[|ms| - 1].vertices
  }

  /** The UVs of the meshes, in mesh order. */
  function AllUvs(ms: seq<MeshData>): seq<UvRef>
  {
    if ms == [] then [] else AllUvs(ms[..|ms| - 1]) + ms[|ms| - 1].uvs
  }

  /** The faces the first `k` ranges cover. */
  function Covered(rs: seq<(nat, nat)>, k: nat): nat
    requires k <= |rs|
  {
    if k == 0 then 0 else rs[k - 1].0 + rs[k - 1].1
  }

  /** Each range starts where the one before it ends, takes between 1
      and `MaxFaces` faces, all of them when it is not the last, and none
      ends past the last face. */
  lemma RangesTile(faceCount: nat, j: nat)
    requires j < |Ranges(faceCount, 0)|
    ensures var rs := Ranges(faceCount, 0);
            && rs[j].0 == Covered(rs, j)
            && Covered(rs, j + 1) <= faceCount
            && 0 < rs[j].1 <= MaxFaces
            && (j < |rs| - 1 ==> rs[j].1 == MaxFaces)
  {
    RangesAt(faceCount, 0, j, j * MaxFaces);
    if j > 0 {
      RangesAt(faceCount, 0, j - 1, (j - 1) * MaxFaces);
    }
    if j < |Ranges(faceCount, 0)| - 1 {
      RangesAt(faceCount, 0, j + 1, (j + 1) * MaxFaces);
    }
  }

  /** Mesh `j` holds the vertices and UVs of the faces of range `j`. */
  lemma SplitTakes(vertices: seq<Vec3>, indices: seq<int>, uvs: seq<UvRef>, j: nat)
    requires |vertices| % 4 == 0 && j < |Split(vertices, indices, uvs)|
    ensures var r := Ranges(|vertices| / 4, 0)[j];
            && r.0 + r.1 <= |vertices| / 4
            && Split(vertices, indices, uvs)[j].vertices == vertices[4 * r.0..4 * (r.0 + r.1)]
            && (|uvs| == |vertices| ==> Split(vertices, indices, uvs)[j].uvs == uvs[4 * r.0..4 * (r.0 + r.1)])
  {
    var r := Ranges(|vertices| / 4, 0)[j];
    RangesTile(|vertices| / 4, j);
    CutTakes(vertices, indices, uvs, |vertices| / 4, r.0, r.1);
  }

  /** A prefix is a shorter prefix followed by the entries between. */
  lemma SliceJoin<T>(s: seq<T>, i: int, j: int)
    requires 0 <= i <= j <= |s|
    ensures s[..j] == s[..i] + s[i..j]
  {
  }

  /** Joining the first `k` meshes adds mesh `k - 1` to the first `k - 1`. */
  lemma AllOfPrefix(ms: seq<MeshData>, k: nat)
    requires 0 < k <= |ms|
    ensures AllVertices(ms[..k]) == AllVertices(ms[..k - 1]) + ms[k - 1].vertices
    ensures AllUvs(ms[..k]) == AllUvs(ms[..k - 1]) + ms[k - 1].uvs
  {
    assert ms[..k][..k - 1] == ms[..k - 1];
  }

  /** True when mesh `j` holds the vertices and UVs of range `j` and each
      range starts where the one before it ends. */
  ghost predicate Tiled(ms: seq<MeshData>, rs: seq<(nat, nat)>, vertices: seq<Vec3>, uvs: seq<UvRef>)
  {
    && |rs| == |ms| && |uvs| == |vertices|
    && forall j :: 0 <= j < |ms| ==>
         && rs[j].0 == Covered(rs, j)
         && 4 * (rs[j].0 + rs[j].1) <= |vertices|
         && ms[j].vertices == vertices[4 * rs[j].0..4 * (rs[j].0 + rs[j].1)]
         && ms[j].uvs == uvs[4 * rs[j].0..4 * (rs[j].0 + rs[j].1)]
  }

  /** The first `k` tiled meshes hold the vertices and UVs of the faces
      the first `k` ranges cover. */
  lemma {:induction false} TiledPrefix(ms: seq<MeshData>, rs: seq<(nat, nat)>, vertices: seq<Vec3>, uvs: seq<UvRef>, k: nat)
    requires Tiled(ms, rs, vertices, uvs) && k <= |ms|
    ensures 4 * Covered(rs, k) <= |vertices|
    ensures AllVertices(ms[..k]) == vertices[..4 * Covered(rs, k)]
    ensures AllUvs(ms[..k]) == uvs[..4 * Covered(rs, k)]
  {
    if k > 0 {
      TiledPrefix(ms, rs, vertices, uvs, k - 1);
      AllOfPrefix(ms, k);
      SliceJoin(vertices, 4 * Covered(rs, k - 1), 4 * Covered(rs, k));
      SliceJoin(uvs, 4 * Covered(rs, k - 1), 4 * Covered(rs, k));
    }
  }

  /** Tiled meshes whose ranges reach the last face hold all the vertices
      and UVs. */
  lemma TiledAll(ms: seq<MeshData>, rs: seq<(nat, nat)>, vertices: seq<Vec3>, uvs: seq<UvRef>)
    requires Tiled(ms, rs, vertices, uvs) && 4 * Covered(rs, |ms|) == |vertices|
    ensures AllVertices(ms) == vertices && AllUvs(ms) == uvs
  {
    TiledPrefix(ms, rs, vertices, uvs, |ms|);
    assert ms[..|ms|] == ms;
  }

  /** The meshes' vertex lists, joined, are the chunk's vertex list, and
      likewise for the UVs: nothing is lost, repeated or reordered. */
  lemma SplitPartitions(vertices: seq<Vec3>, indices: seq<int>, uvs: seq<UvRef>)
    requires |vertices| % 4 == 0 && |uvs| == |vertices|
    ensures AllVertices(Split(vertices, indices, uvs)) == vertices
    ensures AllUvs(Split(vertices, indices, uvs)) == uvs
  {
    var ms := Split(vertices, indices, uvs);
    var rs := Ranges(|vertices| / 4, 0);
    forall j | 0 <= j < |ms|
      ensures rs[j].0 == Covered(rs, j)
      ensures 4 * (rs[j].0 + rs[j].1) <= |vertices|
      ensures ms[j].vertices == vertices[4 * rs[j].0..4 * (rs[j].0 + rs[j].1)]
      ensures ms[j].uvs == uvs[4 * rs[j].0..4 * (rs[j].0 + rs[j].1)]
    {
      RangesTile(|vertices| / 4, j);
      SplitTakes(vertices, indices, uvs, j);
    }
    RangesEnd(|vertices| / 4, 0);
    TiledAll(ms, rs, vertices, uvs);
  }

  /** True when every mesh holds between 1 and `MaxVertices` vertices,
      whole faces only, and every mesh but the last is full. */
  predicate SizedMeshes(ms: seq<MeshData>)
  {
    forall j :: 0 <= j < |ms| ==>
      && 0 < |ms[j].vertices| <= MaxVertices && |ms[j].vertices| % 4 == 0
      && (j < |ms| - 1 ==> |ms[j].vertices| == MaxVertices)
  }

  /** Every mesh has between 1 and 65000 vertices, whole faces only, and
      every mesh but the last is full. */
  lemma SplitSizes(vertices: seq<Vec3>, indices: seq<int>, uvs: seq<UvRef>)
    requires |vertices| % 4 == 0
    ensures SizedMeshes(Split(vertices, indices, uvs))
  {
    var ms := Split(vertices, indices, uvs);
    forall j | 0 <= j < |ms|
      ensures 0 < |ms[j].vertices| <= MaxVertices && |ms[j].vertices| % 4 == 0
      ensures j < |ms| - 1 ==> |ms[j].vertices| == MaxVertices
    {
      RangesTile(|vertices| / 4, j);
      SplitTakes(vertices, indices, uvs, j);
    }
  }

  /** Index `p` of a face list's index list, sign removed, names a vertex
      of face `p / 6`. */
  lemma IndexOfFace(fs: seq<Face>, p: int)
    requires 0 <= p < 6 * |fs|
    ensures 4 * (p / 6) <= Abs(IndicesOf(fs)[p]) < 4 * (p / 6) + 4
  {
    IndicesAt(fs, p / 6, p % 6);
  }

  /** True when the index list holds six indices per face and index `p`,
      sign removed, names one of the four vertices of face `p / 6`. */
  ghost predicate IndicesByFace(indices: seq<int>, faceCount: nat)
  {
    && |indices| == 6 * faceCount
    && forall p :: 0 <= p < |indices| ==> 4 * (p / 6) <= Abs(indices[p]) < 4 * (p / 6) + 4
  }

  /** The index list the mesh pass writes is laid out face by face. */
  lemma EmittedIndicesByFace(fs: seq<Face>, vertices: seq<Vec3>, indices: seq<int>, uvs: seq<UvRef>)
    requires Emitted(fs, vertices, indices, uvs)
    ensures |vertices| == 4 * |fs|
    ensures IndicesByFace(indices, |fs|)
  {
    forall p | 0 <= p < |indices|
      ensures 4 * (p / 6) <= Abs(indices[p]) < 4 * (p / 6) + 4
    {
      IndexOfFace(fs, p);
    }
  }

  /** True when every index of the mesh, after rebasing, names one of its
      own vertices. */
  ghost predicate MeshInRange(m: MeshData)
  {
    forall v :: v in m.triangles || v in m.transparentTriangles ==> 0 <= v < |m.vertices|
  }

  ghost predicate IndicesInRange(ms: seq<MeshData>)
  {
    forall j :: 0 <= j < |ms| ==> MeshInRange(ms[j])
  }

  /** A mesh cut from a face-by-face index list refers only to its own
      vertices. */
  lemma CutInRange(vertices: seq<Vec3>, indices: seq<int>, uvs: seq<UvRef>, faceCount: nat, a: nat, b: nat)
    requires |vertices| == 4 * faceCount && IndicesByFace(indices, faceCount) && a + b <= faceCount
    ensures MeshInRange(Cut(vertices, indices, uvs, a, b))
  {
    var selected := Window(indices, 6 * a, 6 * b);
    forall j | 0 <= j < |selected|
      ensures 4 * a <= Abs(selected[j]) < 4 * a + 4 * b
    {
      assert selected[j] == indices[6 * a + j];
      assert (6 * a + j) / 6 == a + j / 6;
    }
    ClassifyInRange(selected, 4 * a, 4 * b);
  }

  /** For the lists the mesh pass writes, every index of every mesh,
      after rebasing, names one of that mesh's own vertices. */
  lemma SplitIndicesInRange(fs: seq<Face>, vertices: seq<Vec3>, indices: seq<int>, uvs: seq<UvRef>)
    requires Emitted(fs, vertices, indices, uvs)
    ensures |vertices| % 4 == 0
    ensures IndicesInRange(Split(vertices, indices, uvs))
  {
    EmittedIndicesByFace(fs, vertices, indices, uvs);
    var ms := Split(vertices, indices, uvs);
    forall j | 0 <= j < |ms|
      ensures MeshInRange(ms[j])
    {
      SplitAt(vertices, indices, uvs, j);
      CutInRange(vertices, indices, uvs, |fs|, j * MaxFaces, Min(|fs| - j * MaxFaces, MaxFaces));
    }
  }

  /** A selected non-negative index reaches the cut's opaque list. */
  lemma CutKeeps(vertices: seq<Vec3>, indices: seq<int>, uvs: seq<UvRef>, a: nat, b: nat, i: nat)
    requires i < 6 * b && 6 * a + i < |indices| && indices[6 * a + i] >= 0
    ensures indices[6 * a + i] - 4 * a in Cut(vertices, indices, uvs, a, b).triangles
  {
    var selected := Window(indices, 6 * a, 6 * b);
    assert selected[i] == indices[6 * a + i];
    ClassifiedTo(selected, 4 * a, i);
  }

  /** When the first face the mesh pass writes belongs to a transparent
      block, the first mesh's opaque triangle list receives vertex 0: one
      corner of a transparent triangle is drawn with the opaque material
      and the opaque list's length is no longer a multiple of 3. */
  lemma FirstTransparentFaceInOpaqueList(fs: seq<Face>, vertices: seq<Vec3>, indices: seq<int>, uvs: seq<UvRef>)
    requires Emitted(fs, vertices, indices, uvs) && |fs| > 0 && fs[0].transparent
    ensures |vertices| % 4 == 0
    ensures 0 in Split(vertices, indices, uvs)[0].triangles
  {
    FirstTransparentFaceLeaks(fs);
    var i :| 0 <= i < 6 && IndicesOf(fs)[i] == 0;
    assert |vertices| == 4 * |fs| && |vertices| / 4 == |fs|;
    RangesTile(|fs|, 0);
    var b := Ranges(|fs|, 0)[0].1;
    assert Split(vertices, indices, uvs)[0] == Cut(vertices, indices, uvs, 0, b);
    CutKeeps(vertices, indices, uvs, 0, b, i);
  }
}
