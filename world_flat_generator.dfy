/** The world's flat generator: every cell whose absolute height is below 4
    becomes block 2 (dirt); the cells above keep what they held. */
module WorldFlatGenerator {

  import opened Wrappers
  import opened TerrainGrid
  import opened ChunkFaces

  /** The block id laid down (the generator's `dirtId`). */
  const DirtId: Short := 2

  /** The first absolute height left untouched. */
  const GroundTop: int := 4

  /** The cell the generator leaves at local height `y` of a chunk whose
      origin lies at height `originY`, where `c` was. */
  function Layered(y: int, originY: int, c: Option<Voxel>): Option<Voxel>
  {
    if y + originY < GroundTop then Some(Voxel(DirtId, 0)) else c
  }

  /** Running the generator a second time changes nothing: a chunk that is
      generated again (its job re-created after the chunk was dropped)
      gets the same ground. */
  lemma LayeredIdempotent(y: int, originY: int, c: Option<Voxel>)
    ensures Layered(y, originY, Layered(y, originY, c)) == Layered(y, originY, c)
  {
  }

  /** A chunk whose origin is at height 4 or above is left as it was. */
  lemma HighChunkUntouched(y: int, originY: int, c: Option<Voxel>)
    requires 0 <= y && GroundTop <= originY
    ensures Layered(y, originY, c) == c
  {
  }

  /** `GenerateTerrainData`: every cell (x, y, z) with `y + worldspace.y < 4`
      becomes block 2 and every other cell keeps its content. The x and z
      of `worldspace` are never used. */
  method GenerateTerrainData(g: TerrainData, worldspace: Vec3)
    requires g.Valid()
    modifies g, g.voxelData
    ensures forall x, y, z :: g.InBounds(x, y, z) ==>
              g.voxelData[x, y, z] == Layered(y, worldspace.y, old(g.voxelData[x, y, z]))
    ensures g.isDirty == (old(g.isDirty) || (g.width > 0 && g.height > 0 && g.depth > 0 && worldspace.y < GroundTop))
  {
    var x := 0;
    while x < g.width
      invariant 0 <= x <= g.width
      invariant forall i, j, k :: g.InBounds(i, j, k) ==>
                  g.voxelData[i, j, k] == if i < x then Layered(j, worldspace.y, old(g.voxelData[i, j, k])) else old(g.voxelData[i, j, k])
      invariant g.isDirty == (old(g.isDirty) || (0 < x && g.height > 0 && g.depth > 0 && worldspace.y < GroundTop))
    {
      FillSlice(g, x, worldspace.y);
      x := x + 1;
    }
  }

  /** The y loop of `GenerateTerrainData` for one x. */
  method FillSlice(g: TerrainData, x: int, originY: int)
    requires g.Valid() && 0 <= x < g.width
    modifies g, g.voxelData
    ensures forall i, j, k :: g.InBounds(i, j, k) ==>
              g.voxelData[i, j, k] == if i == x then Layered(j, originY, old(g.voxelData[i, j, k])) else old(g.voxelData[i, j, k])
    ensures g.isDirty == (old(g.isDirty) || (g.height > 0 && g.depth > 0 && originY < GroundTop))
  {
    var y := 0;
    while y < g.height
      invariant 0 <= y <= g.height
      invariant forall i, j, k :: g.InBounds(i, j, k) ==>
                  g.voxelData[i, j, k] == if i == x && j < y then Layered(j, originY, old(g.voxelData[i, j, k])) else old(g.voxelData[i, j, k])
      invariant g.isDirty == (old(g.isDirty) || (0 < y && g.depth > 0 && originY < GroundTop))
    {
      FillRun(g, x, y, originY);
      y := y + 1;
    }
  }

  /** The z loop of `GenerateTerrainData` for one row. */
  method FillRun(g: TerrainData, x: int, y: int, originY: int)
    requires g.Valid() && 0 <= x < g.width && 0 <= y < g.height
    modifies g, g.voxelData
    ensures forall i, j, k :: g.InBounds(i, j, k) ==>
              g.voxelData[i, j, k] == if i == x && j == y then Layered(j, originY, old(g.voxelData[i, j, k])) else old(g.voxelData[i, j, k])
    ensures g.isDirty == (old(g.isDirty) || (g.depth > 0 && y + originY < GroundTop))
  {
    var z := 0;
    while z < g.depth
      invariant 0 <= z <= g.depth
      invariant forall i, j, k :: g.InBounds(i, j, k) ==>
                  g.voxelData[i, j, k] == if i == x && j == y && k < z then Layered(j, originY, old(g.voxelData[i, j, k])) else old(g.voxelData[i, j, k])
      invariant g.isDirty == (old(g.isDirty) || (0 < z && y + originY < GroundTop))
    {
      if y + originY < GroundTop {
        g.SetVoxel(x, y, z, DirtId);
      }
      z := z + 1;
    }
  }
}
