/** The engine's flat generator: three layers of block 1 at the bottom of
    every chunk, wherever the chunk lies. */
module FlatGenerator {

  import opened Wrappers
  import opened TerrainGrid
  import opened ChunkFaces

  /** The block id laid down. */
  const GroundId: Short := 1

  /** The number of layers filled, counted from y = 0. */
  const GroundLayers: int := 3

  /** The cell the generator leaves at height `y` where `c` was. */
  function Flat(y: int, c: Option<Voxel>): Option<Voxel>
  {
    if y < GroundLayers then Some(Voxel(GroundId, 0)) else c
  }

  /** Running the generator a second time changes nothing: a chunk that is
      generated again (its job re-created after the chunk was dropped)
      gets the same ground. */
  lemma FlatIdempotent(y: int, c: Option<Voxel>)
    ensures Flat(y, Flat(y, c)) == Flat(y, c)
  {
  }

  /** What the jagged array throws when `SetVoxel` is handed a layer the
      grid does not have. */
  datatype GeneratorError = IndexOutOfRange

  /** `GenerateTerrainData`: fills layers 0, 1 and 2 of every column with
      block 1 and leaves every higher cell as it was; `worldspace` is never
      read. The y loop ignores the grid's height and `SetVoxel` does not
      check bounds, so on a grid that has columns but fewer than three
      layers the first column's write above the top throws: by then that
      column's cells are all filled, and nothing else is. */
  method GenerateTerrainData(g: TerrainData, worldspace: Vec3) returns (r: Result<(), GeneratorError>)
    requires g.Valid()
    modifies g, g.voxelData
    ensures r.Err? <==> g.width > 0 && g.depth > 0 && g.height < GroundLayers
    ensures forall x, y, z :: g.InBounds(x, y, z) ==>
              g.voxelData[x, y, z] == if r.Ok? || (x == 0 && z == 0) then Flat(y, old(g.voxelData[x, y, z])) else old(g.voxelData[x, y, z])
    ensures r.Ok? ==> g.isDirty == (old(g.isDirty) || (g.width > 0 && g.depth > 0))
    ensures r.Err? ==> g.isDirty == (old(g.isDirty) || g.height > 0)
  {
    var x := 0;
    while x < g.width
      invariant 0 <= x <= g.width
      invariant 0 < x && g.depth > 0 ==> g.height >= GroundLayers
      invariant forall i, j, k :: g.InBounds(i, j, k) ==>
                  g.voxelData[i, j, k] == if i < x then Flat(j, old(g.voxelData[i, j, k])) else old(g.voxelData[i, j, k])
      invariant g.isDirty == (old(g.isDirty) || (0 < x && g.depth > 0))
    {
      r := FillSlice(g, x);
      if r.Err? {
        return;
      }
      x := x + 1;
    }
    return Ok(());
  }

  /** The z loop of `GenerateTerrainData` for one x. When the grid is too
      low, the first column throws and the rest of the slice is untouched. */
  method FillSlice(g: TerrainData, x: int) returns (r: Result<(), GeneratorError>)
    requires g.Valid() && 0 <= x < g.width
    modifies g, g.voxelData
    ensures r.Err? <==> g.depth > 0 && g.height < GroundLayers
    ensures forall i, j, k :: g.InBounds(i, j, k) ==>
              g.voxelData[i, j, k] == if i == x && (r.Ok? || k == 0) then Flat(j, old(g.voxelData[i, j, k])) else old(g.voxelData[i, j, k])
    ensures r.Ok? ==> g.isDirty == (old(g.isDirty) || g.depth > 0)
    ensures r.Err? ==> g.isDirty == (old(g.isDirty) || g.height > 0)
  {
    var z := 0;
    while z < g.depth
      invariant 0 <= z <= g.depth
      invariant 0 < z ==> g.height >= GroundLayers
      invariant forall i, j, k :: g.InBounds(i, j, k) ==>
                  g.voxelData[i, j, k] == if i == x && k < z then Flat(j, old(g.voxelData[i, j, k])) else old(g.voxelData[i, j, k])
      invariant g.isDirty == (old(g.isDirty) || 0 < z)
    {
      r := FillColumn(g, x, z);
      if r.Err? {
        return;
      }
      z := z + 1;
    }
    return Ok(());
  }

  /** The y loop of `GenerateTerrainData` for one column: layers 0, 1 and 2
      in turn, throwing at the first layer the grid does not have. Either
      way every cell the column has ends up filled. */
  method FillColumn(g: TerrainData, x: int, z: int) returns (r: Result<(), GeneratorError>)
    requires g.Valid() && 0 <= x < g.width && 0 <= z < g.depth
    modifies g, g.voxelData
    ensures r.Err? <==> g.height < GroundLayers
    ensures forall i, j, k :: g.InBounds(i, j, k) ==>
              g.voxelData[i, j, k] == if i == x && k == z then Flat(j, old(g.voxelData[i, j, k])) else old(g.voxelData[i, j, k])
    ensures g.isDirty == (old(g.isDirty) || g.height > 0)
  {
    var y := 0;
    while y < GroundLayers
      invariant 0 <= y <= GroundLayers && y <= g.height
      invariant forall i, j, k :: g.InBounds(i, j, k) ==>
                  g.voxelData[i, j, k] == if i == x && k == z && j < y then Some(Voxel(GroundId, 0)) else old(g.voxelData[i, j, k])
      invariant g.isDirty == (old(g.isDirty) || 0 < y)
    {
      if y >= g.height {
        return Err(IndexOutOfRange);
      }
      g.SetVoxel(x, y, z, GroundId);
      y := y + 1;
    }
    return Ok(());
  }
}
