/** The voxel grid of one chunk: a fixed-size three-dimensional array of
    nullable cells, each holding a block id, plus a dirty flag that tells the
    mesher to rebuild. */
module TerrainGrid {

  import opened Wrappers

  /** The source stores block ids as a signed 16-bit `short`. */
  type Short = v: int | -0x8000 <= v < 0x8000

  /** A cell's rotation selects one of the four rows of the face-rotation
      table. The mesher indexes that table with a byte; rotations 4 to 255
      are left out. */
  type Rotation = r: int | 0 <= r < 4

  /** One cell. A negative block id means "no block" (air). The grid's own
      `VoxelData` holds only the block id; the mesher also reads a
      `rotation` from each cell, so the model gives every cell one, and a
      cell that `SetVoxel` writes gets rotation 0, the default of a byte
      field. */
  datatype Voxel = Voxel(blockId: Short, rotation: Rotation)

  /** True when the cell holds a block: a cell exists and its id is not negative. */
  predicate IsSolid(c: Option<Voxel>)
  {
    c.Some? && c.value.blockId >= 0
  }

  /** A value copy of a grid: its dimensions and the cell stored at every
      in-bounds position. This is what the mesher's specification reads
      instead of the mutable array. */
  datatype GridView = GridView(width: nat, height: nat, depth: nat, cells: map<(int, int, int), Option<Voxel>>)
  {
    predicate InBounds(x: int, y: int, z: int)
    {
      0 <= x < width && 0 <= y < height && 0 <= z < depth
    }

    /** The cell at (x, y, z); None outside the copy. */
    function At(x: int, y: int, z: int): Option<Voxel>
    {
      if (x, y, z) in cells then cells[(x, y, z)] else None
    }
  }

  class TerrainData {
    const width: nat
    const height: nat
    const depth: nat
    const voxelData: array3<Option<Voxel>>
    var isDirty: bool

    /** The array always has the dimensions fixed at construction. Everything
        it mentions is immutable, so it holds in every heap once established. */
    predicate Valid()
    {
      voxelData.Length0 == width && voxelData.Length1 == height && voxelData.Length2 == depth
    }

    predicate InBounds(x: int, y: int, z: int)
    {
      0 <= x < width && 0 <= y < height && 0 <= z < depth
    }

    /** `v` holds exactly the current cells. */
    ghost predicate Mirrors(v: GridView)
      requires Valid()
      reads voxelData
    {
      && v.width == width && v.height == height && v.depth == depth
      && forall x, y, z :: InBounds(x, y, z) ==> (x, y, z) in v.cells && v.cells[(x, y, z)] == voxelData[x, y, z]
    }

    /** The current cells as a value. */
    ghost function View(): (v: GridView)
      requires Valid()
      reads voxelData
      ensures Mirrors(v)
    {
      GridView(width, height, depth,
        map x, y, z | 0 <= x < width && 0 <= y < height && 0 <= z < depth :: (x, y, z) := voxelData[x, y, z])
    }

    /** A new grid has the given dimensions and every cell is empty. */
    constructor (width: nat, height: nat, depth: nat)
      ensures Valid() && fresh(voxelData)
      ensures this.width == width && this.height == height && this.depth == depth
      ensures forall x, y, z :: 0 <= x < width && 0 <= y < height && 0 <= z < depth ==>
                voxelData[x, y, z] == None
      ensures !isDirty
    {
      this.width, this.height, this.depth := width, height, depth;
      voxelData := new Option<Voxel>[width, height, depth]((x, y, z) => None);
      isDirty := false;
    }

    /** Writes a fresh cell holding `blockId` (rotation 0) and marks the grid
        dirty. There is no bounds check in the source, so the caller must stay
        inside the grid. */
    method SetVoxel(x: int, y: int, z: int, blockId: Short)
      requires Valid() && InBounds(x, y, z)
      modifies this, voxelData
      ensures isDirty
      ensures voxelData[x, y, z] == Some(Voxel(blockId, 0))
      ensures forall i, j, k :: InBounds(i, j, k) && (i, j, k) != (x, y, z) ==>
                voxelData[i, j, k] == old(voxelData[i, j, k])
    {
      voxelData[x, y, z] := Some(Voxel(blockId, 0));
      isDirty := true;
    }

    /** The cell at (x, y, z); None when nothing was ever written there. */
    function GetVoxel(x: int, y: int, z: int): (c: Option<Voxel>)
      requires Valid() && InBounds(x, y, z)
      reads voxelData
      ensures c == voxelData[x, y, z]
    {
      voxelData[x, y, z]
    }

    /** True exactly when the cell exists and its block id is not negative. */
    function HasVoxel(x: int, y: int, z: int): (b: bool)
      requires Valid() && InBounds(x, y, z)
      reads voxelData
      ensures b <==> voxelData[x, y, z].Some? && voxelData[x, y, z].value.blockId >= 0
    {
      IsSolid(voxelData[x, y, z])
    }

    /** The `isDirty` setter changes only the flag, never a cell. */
    method SetDirty(value: bool)
      modifies this
      ensures isDirty == value
      ensures unchanged(voxelData)
    {
      isDirty := value;
    }
  }
}
