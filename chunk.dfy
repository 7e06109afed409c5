/** The chunk object that renders one grid: which grid it shows, whether its
    mesh must be rebuilt, and the meshes of its last rebuild. */
module TerrainChunks {

  import opened TerrainGrid
  import opened ChunkMesh
  import opened MeshSplit

  class TerrainChunk {
    /** The grid this chunk renders; null until a generation job attaches one. */
    var chunkData: TerrainData?
    /** The chunk's own rebuild flag. */
    var ownDirty: bool
    /** The meshes of the last rebuild, waiting to be uploaded. */
    var newMeshData: seq<MeshData>

    /** A new chunk has no grid, no pending rebuild and no meshes. */
    constructor ()
      ensures chunkData == null && !ownDirty && newMeshData == []
    {
      chunkData := null;
      ownDirty := false;
      newMeshData := [];
    }

    /** A chunk as the constructor leaves it: no grid and no pending
        rebuild. */
    predicate Blank()
      reads this
    {
      chunkData == null && !ownDirty
    }

    /** The `isDirty` getter: the chunk must be rebuilt when its own flag or
        its grid's flag is set. */
    predicate IsDirty()
      reads this, chunkData
      ensures ownDirty ==> IsDirty()
      ensures chunkData != null && chunkData.isDirty ==> IsDirty()
      ensures chunkData == null ==> (IsDirty() <==> ownDirty)
    {
      ownDirty || (chunkData != null && chunkData.isDirty)
    }

    /** The `isDirty` setter writes the chunk's flag and, when there is a
        grid, the grid's flag too, so the getter then reads back `value`.
        No cell of the grid changes. */
    method SetDirty(value: bool)
      modifies this, chunkData
      ensures chunkData == old(chunkData) && newMeshData == old(newMeshData)
      ensures ownDirty == value
      ensures chunkData != null ==> chunkData.isDirty == value
      ensures IsDirty() == value
    {
      ownDirty := value;
      if chunkData != null {
        chunkData.SetDirty(value);
      }
    }

    /** The `chunkData` setter: attaching a grid (or null) always marks the
        chunk for a rebuild. */
    method SetChunkData(data: TerrainData?)
      modifies this
      ensures chunkData == data && ownDirty && newMeshData == old(newMeshData)
      ensures IsDirty()
    {
      chunkData := data;
      ownDirty := true;
    }

    /** `GenerateMesh`: culls and emits the faces of the attached grid, then
        cuts the lists into meshes. The result is exactly `Split` of the
        emitted lists of `Faces`, so every mesh property proved about
        `Split` holds of `newMeshData`. */
    method GenerateMesh(transparent: set<int>)
      requires chunkData != null && chunkData.Valid()
      modifies this
      ensures chunkData == old(chunkData) && ownDirty == old(ownDirty)
      ensures var fs := Faces(chunkData.View(), transparent);
              newMeshData == Split(VerticesOf(fs), IndicesOf(fs), UvsOf(fs))
    {
      ghost var fs := Faces(chunkData.View(), transparent);
      var vertices, indices, uvs := ChunkMesh.GenerateMesh(chunkData, transparent);
      assert |vertices| == 4 * |fs|;
      newMeshData := SplitMesh(vertices, indices, uvs);
    }

    /** The rebuild step at the head of `FixedUpdate`: a dirty chunk rebuilds
        its meshes from its grid and clears both flags. A dirty chunk without
        a grid clears its flag too; its rebuild fails on the missing grid, so
        the old meshes stay. */
    method Refresh(transparent: set<int>)
      requires chunkData != null ==> chunkData.Valid()
      modifies this, chunkData
      ensures chunkData == old(chunkData)
      ensures !IsDirty()
      ensures old(IsDirty()) && chunkData != null ==>
                var fs := Faces(chunkData.View(), transparent);
                newMeshData == Split(VerticesOf(fs), IndicesOf(fs), UvsOf(fs))
      ensures !(old(IsDirty()) && chunkData != null) ==> newMeshData == old(newMeshData)
    {
      if IsDirty() {
        if chunkData != null {
          GenerateMesh(transparent);
        }
        SetDirty(false);
      }
    }
  }
}
