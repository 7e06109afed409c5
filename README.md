# cubicworld voxel core in Dafny

A model of the integer core of the cubicworld voxel engine, a Unity/C#
engine that stores terrain as chunks of voxels. The model covers:

- the voxel grid of one chunk (`CubicTerrainData`): a fixed-size 3-D array of
  nullable cells plus a dirty flag. The grid's `VoxelData` holds only a block
  id. The mesher also reads a `rotation` from each cell, a field of a later
  revision of that struct, so every cell of the model carries one as well;
  `SetVoxel` writes rotation 0, the default of a byte field;
- the sparse 3-D keyed map `List3D` and its `ListIndex` key, where the first
  write wins;
- the chunk mesh builder (`CubicTerrainChunk`):
  - the six side templates and the rotation table;
  - face culling against the six neighbours;
  - four vertices, four UVs and six indices per visible face, with
    transparent faces tagged by negated indices;
  - the splitter that cuts the lists into meshes of at most 65000 vertices;
  - the chunk's dirty flags and the face picked by a block hit;
- the chunk file store (`CubicTerrainChunkFile`):
  - 16-byte lookup records `(x: int32, z: int32, offset: int64)` in
    little-endian order, on a lookup file and a data file held as byte
    sequences;
  - offsets allocated at the end of the data file for new keys and reused
    for known keys;
- both revisions of the world streamer (`CubicTerrain`):
  - the column streamer of `Assets/VoxelEngine`, keyed by `ChunkTuple`
    (x, z), with a square preload box and eviction beyond twice the radius;
  - the layered streamer of `Assets/CubicWorld`, keyed by `ListIndex`
    (x, y, z), with a disc-shaped preload, a stack of chunks per column and
    eviction beyond the radius;
  - for each: the chunk-coordinate arithmetic, the preload pass, one
    sequential pass of the generation worker, the hand-over of finished
    jobs and the garbage collection;
  - for the layered streamer also block access through world coordinates;
- the block and texture registry (`Blocks`);
- the two flat terrain generators.

Each source file that changes state in place is a class with the source's
fields:

- the grid keeps its `array3`;
- the registry, the map wrapper, the chunk object, the file store and both
  streamers keep their dictionaries as `map` fields;
- the generators and the mesh pass are methods with loops.

Every such method is proved against a specification function on values:

- `Faces` for culling;
- `VerticesOf`, `IndicesOf` and `UvsOf` for the emitted lists;
- `Split` for the buffer cut;
- `ParseFrom` and `SetChunk` for the file store;
- `AddFirst`, `Requested`, `Finished` and `Passed` for the streamers.

The properties of those functions are proved as lemmas.

Euclidean distances between integer chunk coordinates are compared with an
integer radius through squares (module `Distances`). This is exact:
`sqrt(d2) < r` holds exactly when `r > 0 && d2 < r * r`.

## Model

| member | source | states |
|---|---|---|
| TerrainGrid.TerrainData.constructor | Assets/VoxelEngine/Scripts/CubicTerrainData.cs:80-97 | the new grid has exactly the given width, height and depth, every cell is null and the grid is not dirty |
| TerrainGrid.TerrainData.View | Assets/VoxelEngine/Scripts/CubicTerrainData.cs:43-72 | the value snapshot of the grid agrees with every cell of the array and with the fixed dimensions |
| TerrainGrid.TerrainData.SetVoxel | Assets/VoxelEngine/Scripts/CubicTerrainData.cs:108-113 | the addressed cell holds the new block id with rotation 0, every other cell is unchanged and the grid is dirty; coordinates must be in range because the source does no bounds check |
| TerrainGrid.TerrainData.GetVoxel | Assets/VoxelEngine/Scripts/CubicTerrainData.cs:123-126 | returns the addressed cell, which may be null; in-range coordinates required |
| TerrainGrid.TerrainData.HasVoxel | Assets/VoxelEngine/Scripts/CubicTerrainData.cs:136-139 | true exactly when the cell is non-null and its block id is at least 0, so it is false after storing -1 |
| TerrainGrid.TerrainData.SetDirty | Assets/VoxelEngine/Scripts/CubicTerrainData.cs:34-40 | setting `isDirty` sets the flag to the given value and leaves every cell unchanged |
| List3D.Equals | Assets/VoxelEngine/Scripts/List3D.cs:112-117 | a null or non-ListIndex argument is an error (the `as` cast yields null and reading its field throws); otherwise the keys are equal exactly when x, y and z agree |
| List3D.HashCode | Assets/VoxelEngine/Scripts/List3D.cs:119-130 | the hash is a 32-bit value computed with wrap-around |
| List3D.HashCodeClosedForm | Assets/VoxelEngine/Scripts/List3D.cs:119-130 | the hash equals `((17*23 + x)*23 + y)*23 + z` wrapped to 32 bits once, whatever the intermediate overflows |
| List3D.EqualKeysEqualHashes | Assets/VoxelEngine/Scripts/List3D.cs:112-130 | keys that `Equals` calls equal have equal hash codes |
| List3D.AddFirst | Assets/VoxelEngine/Scripts/List3D.cs:41-49 | the key is present afterwards and keeps its first value if it was already present; every other key keeps its value |
| List3D.RemoveKey | Assets/VoxelEngine/Scripts/List3D.cs:78-81 | only the given key disappears, other keys keep their values, and removing an absent key changes nothing |
| List3D.List3D.constructor | Assets/VoxelEngine/Scripts/List3D.cs:29-32 | a new map is empty |
| List3D.List3D.Add | Assets/VoxelEngine/Scripts/List3D.cs:41-49 | the wrapped dictionary becomes `AddFirst` of the old one: inserts an absent key, no-op on a present key |
| List3D.List3D.Get | Assets/VoxelEngine/Scripts/List3D.cs:57-60 | returns the value stored under the key; the key must be present, as the dictionary indexer throws otherwise |
| List3D.List3D.ContainsKey | Assets/VoxelEngine/Scripts/List3D.cs:69-72 | true exactly when the key is present |
| List3D.List3D.Remove | Assets/VoxelEngine/Scripts/List3D.cs:78-81 | the wrapped dictionary becomes `RemoveKey` of the old one |
| Blocks.Ordinal | Assets/VoxelEngine/Scripts/Blocks/Blocks.cs:161-169 | the enum position of each face, below 6 |
| Blocks.OrdinalInjective | Assets/VoxelEngine/Scripts/Blocks/Blocks.cs:161-169 | distinct faces have distinct enum positions |
| Blocks.Texture2D.constructor | Assets/VoxelEngine/Scripts/Blocks/Blocks.cs:46-50 | a texture records its width and height |
| Blocks.BlockRegistry.constructor | Assets/VoxelEngine/Scripts/Blocks/Blocks.cs:15-33 | a new registry has no blocks, no textures and no texture size |
| Blocks.BlockRegistry.AddTexture | Assets/VoxelEngine/Scripts/Blocks/Blocks.cs:41-62 | the first texture fixes the accepted size; a texture of that size gets the id equal to the texture count before insertion and is stored under it; any other size returns -1 and stores nothing; blocks are untouched |
| Blocks.BlockRegistry.GetTextureById | Assets/VoxelEngine/Scripts/Blocks/Blocks.cs:69-72 | returns the texture stored under the id; the id must be present, as the dictionary throws otherwise |
| Blocks.BlockRegistry.RegisterBlock | Assets/VoxelEngine/Scripts/Blocks/Blocks.cs:132-144 | a new id gets a fresh block, which is stored and returned; an existing id returns null and keeps the original block |
| Blocks.BlockRegistry.GetBlock | Assets/VoxelEngine/Scripts/Blocks/Blocks.cs:152-158 | null exactly for unregistered ids (including before any registration), otherwise the registered block |
| TerrainChunks.TerrainChunk.constructor | Assets/VoxelEngine/Scripts/CubicTerrainChunk.cs:176-203 | a new chunk has no grid, no pending rebuild and no meshes |
| TerrainChunks.TerrainChunk.IsDirty | Assets/VoxelEngine/Scripts/CubicTerrainChunk.cs:199-202 | the chunk must be rebuilt when its own flag is set or its grid's flag is set; without a grid, exactly when its own flag is set |
| TerrainChunks.TerrainChunk.SetDirty | Assets/VoxelEngine/Scripts/CubicTerrainChunk.cs:199-203 | the setter writes the chunk's flag and, when there is a grid, the grid's flag, so the getter (own flag OR grid flag) reads back the value |
| TerrainChunks.TerrainChunk.SetChunkData | Assets/VoxelEngine/Scripts/CubicTerrainChunk.cs:176-180 | assigning a grid stores it and marks the chunk dirty |
| TerrainChunks.TerrainChunk.GenerateMesh | Assets/VoxelEngine/Scripts/CubicTerrainChunk.cs:337-476 | the new meshes are exactly `Split` of the lists emitted for `Faces` of the grid |
| TerrainChunks.TerrainChunk.Refresh | Assets/VoxelEngine/Scripts/CubicTerrainChunk.cs:225-233 | a dirty chunk with a grid rebuilds its meshes from the grid; afterwards the chunk is not dirty; otherwise the meshes are kept |
| ChunkFaces.SideVertices | Assets/VoxelEngine/Scripts/CubicTerrainChunk.cs:29-105 | each side template has four distinct unit-cube corners, all on that side's plane |
| ChunkFaces.SideIndices | Assets/VoxelEngine/Scripts/CubicTerrainChunk.cs:29-105 | each side's six indices lie in 0..3 and use all four corners |
| ChunkFaces.Slot | Assets/VoxelEngine/Scripts/CubicTerrainChunk.cs:107-140 | the table position of each face (LEFT, RIGHT, TOP, BOTTOM, BACK, FRONT), which differs from the enum order |
| ChunkFaces.Row | Assets/VoxelEngine/Scripts/CubicTerrainChunk.cs:107-140 | each row of the rotation table has six entries |
| ChunkFaces.RowZeroIsIdentity | Assets/VoxelEngine/Scripts/CubicTerrainChunk.cs:107-140 | row 0 maps every face to itself |
| ChunkFaces.RowIsPermutation | Assets/VoxelEngine/Scripts/CubicTerrainChunk.cs:107-140 | every row is a permutation of the six faces that keeps TOP and BOTTOM at positions 2 and 3 |
| ChunkFaces.Turn | Assets/VoxelEngine/Scripts/CubicTerrainChunk.cs:107-140 | applying row 1 to each entry of a row |
| ChunkFaces.RowsAreTurns | Assets/VoxelEngine/Scripts/CubicTerrainChunk.cs:107-140 | each row is row 1 applied to the previous row, and four turns return to row 0 |
| ChunkFaces.TransformFacing | Assets/VoxelEngine/Scripts/CubicTerrainChunk.cs:610-626 | TOP and BOTTOM are returned unchanged; every face maps through its table position in the cell's rotation row |
| ChunkFaces.TransformFacingInjective | Assets/VoxelEngine/Scripts/CubicTerrainChunk.cs:610-626 | for a fixed rotation distinct faces map to distinct faces |
| ChunkFaces.HitFace | Assets/VoxelEngine/Scripts/CubicTerrainChunk.cs:570-596 | the first differing axis in the order x, y, z picks RIGHT/LEFT, TOP/BOTTOM, FRONT/BACK; equal positions give LEFT, the enum default |
| ChunkFaces.HitFaceRecoversSide | Assets/VoxelEngine/Scripts/CubicTerrainChunk.cs:562-604 | a hit from the neighbour across side `f` yields `f`, the side whose template lies on that plane |
| ChunkMesh.SlotSide | Assets/VoxelEngine/Scripts/CubicTerrainChunk.cs:107-140 | inverse of the table position |
| ChunkMesh.CellFacesUnrolled | Assets/VoxelEngine/Scripts/CubicTerrainChunk.cs:357-415 | a solid cell's faces are considered in the order LEFT, RIGHT, TOP, BOTTOM, BACK, FRONT |
| ChunkMesh.FaceVertices | Assets/VoxelEngine/Scripts/CubicTerrainChunk.cs:497-530 | a face contributes four vertices |
| ChunkMesh.FaceIndices | Assets/VoxelEngine/Scripts/CubicTerrainChunk.cs:497-530 | a face contributes six indices |
| ChunkMesh.FaceUvs | Assets/VoxelEngine/Scripts/CubicTerrainChunk.cs:497-530 | a face contributes four UV entries |
| ChunkMesh.VerticesOf | Assets/VoxelEngine/Scripts/CubicTerrainChunk.cs:337-418 | vertices = 4 × faces |
| ChunkMesh.IndicesOf | Assets/VoxelEngine/Scripts/CubicTerrainChunk.cs:337-418 | indices = 6 × faces |
| ChunkMesh.UvsOf | Assets/VoxelEngine/Scripts/CubicTerrainChunk.cs:337-418 | UVs = 4 × faces |
| ChunkMesh.EmitOne | Assets/VoxelEngine/Scripts/CubicTerrainChunk.cs:497-530 | appending one face appends its vertices, its UVs and its indices offset by four times the faces before it |
| ChunkMesh.SideFace | Assets/VoxelEngine/Scripts/CubicTerrainChunk.cs:357-415 | a side emits one face when exposed and none otherwise |
| ChunkMesh.FaceIfIsSideFace | Assets/VoxelEngine/Scripts/CubicTerrainChunk.cs:357-415 | the culling test of one side agrees with the neighbour test the loop performs |
| ChunkMesh.MirrorAt | Assets/VoxelEngine/Scripts/CubicTerrainData.cs:123-126 | the value snapshot holds the array's cell |
| ChunkMesh.WriteSideData | Assets/VoxelEngine/Scripts/CubicTerrainChunk.cs:497-530 | appends the side template moved to the cell, the four UVs of the block face and the six template indices plus the counter, negated for a transparent block |
| ChunkMesh.WriteSideIf | Assets/VoxelEngine/Scripts/CubicTerrainChunk.cs:357-415 | writes one side when exposed; the counter stays four times the faces written |
| ChunkMesh.SideTest | Assets/VoxelEngine/Scripts/CubicTerrainChunk.cs:357-415 | the side is exposed exactly when the cell is on that chunk edge or the neighbour is null, has a negative id or is transparent |
| ChunkMesh.WriteSides | Assets/VoxelEngine/Scripts/CubicTerrainChunk.cs:357-415 | the six sides are written in order, each when exposed |
| ChunkMesh.WriteCell | Assets/VoxelEngine/Scripts/CubicTerrainChunk.cs:356-415 | the lists grow by exactly the faces of this cell; null and negative cells add nothing |
| ChunkMesh.WriteRun | Assets/VoxelEngine/Scripts/CubicTerrainChunk.cs:354-416 | the z loop appends the faces of every cell of the run |
| ChunkMesh.WriteColumn | Assets/VoxelEngine/Scripts/CubicTerrainChunk.cs:352-417 | the y loop appends the faces of every run |
| ChunkMesh.GenerateMesh | Assets/VoxelEngine/Scripts/CubicTerrainChunk.cs:337-418 | the returned vertex, index and UV lists are exactly those of `Faces` of the grid |
| MeshProperties.FaceIfMember | Assets/VoxelEngine/Scripts/CubicTerrainChunk.cs:357-415 | a side's face list holds a face exactly when it is that cell's side and shown |
| MeshProperties.SidesUpToMember | Assets/VoxelEngine/Scripts/CubicTerrainChunk.cs:357-415 | the first k sides hold exactly the shown faces of the cell with table position below k |
| MeshProperties.CellFacesMember | Assets/VoxelEngine/Scripts/CubicTerrainChunk.cs:357-415 | a cell's faces are exactly its shown faces |
| MeshProperties.RunFacesMember | Assets/VoxelEngine/Scripts/CubicTerrainChunk.cs:354-416 | a run's faces are exactly the shown faces of its cells below z |
| MeshProperties.ColumnFacesMember | Assets/VoxelEngine/Scripts/CubicTerrainChunk.cs:352-417 | a column's faces are exactly the shown faces of its cells below y |
| MeshProperties.SliceFacesMember | Assets/VoxelEngine/Scripts/CubicTerrainChunk.cs:350-418 | the faces of the first x slices are exactly the shown faces with position below x |
| MeshProperties.RunFacesPos | Assets/VoxelEngine/Scripts/CubicTerrainChunk.cs:354-416 | every face of a run lies in that run |
| MeshProperties.ColumnFacesPos | Assets/VoxelEngine/Scripts/CubicTerrainChunk.cs:352-417 | every face of a column lies in that column |
| MeshProperties.SliceFacesPos | Assets/VoxelEngine/Scripts/CubicTerrainChunk.cs:350-418 | every face of the first x slices lies below x |
| MeshProperties.CellFacesPos | Assets/VoxelEngine/Scripts/CubicTerrainChunk.cs:357-415 | every face of a cell is at that cell |
| MeshProperties.FacesExactlyShown | Assets/VoxelEngine/Scripts/CubicTerrainChunk.cs:350-418 | the mesh holds a face exactly when its cell is solid and the side is on the chunk edge or the neighbour is null, negative or transparent |
| MeshProperties.AirShowsNothing | Assets/VoxelEngine/Scripts/CubicTerrainChunk.cs:357-358 | null cells and cells with a negative id emit no face |
| MeshProperties.CoveredSideHidden | Assets/VoxelEngine/Scripts/CubicTerrainChunk.cs:357-415 | a side covered by a solid, non-transparent neighbour emits no face |
| MeshProperties.ExposedSideShown | Assets/VoxelEngine/Scripts/CubicTerrainChunk.cs:357-415 | a solid cell's side on the edge or next to an open neighbour emits its face |
| MeshProperties.BeforeTransitive | Assets/VoxelEngine/Scripts/CubicTerrainChunk.cs:350-418 | the loop order on (x, y, z, side) is transitive |
| MeshProperties.AppendChained | Assets/VoxelEngine/Scripts/CubicTerrainChunk.cs:350-418 | two ordered face lists joined in order stay ordered |
| MeshProperties.ChainedInOrder | Assets/VoxelEngine/Scripts/CubicTerrainChunk.cs:350-418 | neighbour-wise order implies order of every pair |
| MeshProperties.SidesUpToChained | Assets/VoxelEngine/Scripts/CubicTerrainChunk.cs:357-415 | a cell's faces come out in table order |
| MeshProperties.CellFacesChained | Assets/VoxelEngine/Scripts/CubicTerrainChunk.cs:357-415 | a cell's faces are ordered |
| MeshProperties.RunThenCell | Assets/VoxelEngine/Scripts/CubicTerrainChunk.cs:354-416 | a run's faces all precede the next cell's faces |
| MeshProperties.RunFacesChained | Assets/VoxelEngine/Scripts/CubicTerrainChunk.cs:354-416 | a run's faces are ordered |
| MeshProperties.ColumnFacesChained | Assets/VoxelEngine/Scripts/CubicTerrainChunk.cs:352-417 | a column's faces are ordered |
| MeshProperties.SliceFacesChained | Assets/VoxelEngine/Scripts/CubicTerrainChunk.cs:350-418 | the faces of the first x slices are ordered |
| MeshProperties.FacesInOrder | Assets/VoxelEngine/Scripts/CubicTerrainChunk.cs:350-418 | faces are emitted in strictly increasing (x, y, z, side) order, so no (cell, side) is emitted twice |
| MeshProperties.VerticesAt | Assets/VoxelEngine/Scripts/CubicTerrainChunk.cs:497-530 | vertex 4k+i is corner i of face k's side template moved to face k's cell |
| MeshProperties.UvsAt | Assets/VoxelEngine/Scripts/CubicTerrainChunk.cs:497-530 | UV 4k+i is corner i of face k's block face |
| MeshProperties.IndicesOfPrefix | Assets/VoxelEngine/Scripts/CubicTerrainChunk.cs:497-530 | emitting a face leaves the earlier indices unchanged |
| MeshProperties.IndicesOfLast | Assets/VoxelEngine/Scripts/CubicTerrainChunk.cs:497-530 | the last face's indices are its template indices plus 4 × (its position), tagged |
| MeshProperties.IndicesAt | Assets/VoxelEngine/Scripts/CubicTerrainChunk.cs:497-530 | index 6k+i is template index i of face k plus 4k, negated when transparent |
| MeshProperties.FaceTargets | Assets/VoxelEngine/Scripts/CubicTerrainChunk.cs:497-530 | the set of vertices named by face k's indices contains every one of them |
| MeshProperties.IndicesReferenceOwnFace | Assets/VoxelEngine/Scripts/CubicTerrainChunk.cs:497-530 | face k's indices name exactly the vertices 4k..4k+3, which all exist |
| MeshProperties.IndexSign | Assets/VoxelEngine/Scripts/CubicTerrainChunk.cs:506-510 | an index is negative exactly when its face is transparent and it is not the value 0 of the first face |
| MeshProperties.FirstTransparentFaceLeaks | Assets/VoxelEngine/Scripts/CubicTerrainChunk.cs:506-510 | a transparent first face has an index equal to 0, which carries no sign |
| MeshProperties.TagShifted | Assets/VoxelEngine/Scripts/CubicTerrainChunk.cs:506-510 | shifted tagging: the sign is negative exactly for transparent faces and the vertex is always recoverable |
| MeshProperties.UntagShifted | Assets/VoxelEngine/Scripts/CubicTerrainChunk.cs:451-459 | untagging leaves a non-negative index as it is |
| MeshSplit.Window | Assets/VoxelEngine/Scripts/CubicTerrainChunk.cs:441-443 | `Skip(start).Take(count)`: the slice when it fits, the tail when it runs past the end, empty past the end |
| MeshSplit.VerticesToSelect | Assets/VoxelEngine/Scripts/CubicTerrainChunk.cs:437-439 | `min(remaining, 65000)` rounded down to a multiple of 4: positive for at least 4 vertices, 65000 when that many remain, all of them when fewer and a multiple of 4 |
| MeshSplit.PreprocessIndices | Assets/VoxelEngine/Scripts/CubicTerrainChunk.cs:449-461 | negative indices go, as `abs(i) - verticesAlreadySelected`, to the transparent list and the rest, rebased, to the opaque list, in order |
| MeshSplit.RangesStep | Assets/VoxelEngine/Scripts/CubicTerrainChunk.cs:433-474 | the loop stops exactly when every face is taken; each round takes min(remaining, 16250) faces |
| MeshSplit.NextMesh | Assets/VoxelEngine/Scripts/CubicTerrainChunk.cs:435-469 | one round of the loop builds the mesh of the current face range and the counts by which both counters advance |
| MeshSplit.SplitMesh | Assets/VoxelEngine/Scripts/CubicTerrainChunk.cs:427-476 | the loop's mesh list is exactly `Split` of the lists |
| MeshSplit.Split | Assets/VoxelEngine/Scripts/CubicTerrainChunk.cs:427-476 | the meshes one pass of the splitter produces: none exactly for a chunk without faces; their sizes, contents and indices are stated by `SplitSizes`, `SplitPartitions` and `SplitIndicesInRange` |
| MeshSplit.ClassifyCounts | Assets/VoxelEngine/Scripts/CubicTerrainChunk.cs:449-461 | every selected index lands in exactly one of the two lists |
| MeshSplit.ClassifiedFrom | Assets/VoxelEngine/Scripts/CubicTerrainChunk.cs:449-461 | every entry of a list comes from a selected index of the matching sign |
| MeshSplit.ClassifiedTo | Assets/VoxelEngine/Scripts/CubicTerrainChunk.cs:449-461 | every selected index appears, rebased, in the list of its sign |
| MeshSplit.ClassifyMembers | Assets/VoxelEngine/Scripts/CubicTerrainChunk.cs:449-461 | both directions of the two statements above |
| MeshSplit.ClassifyInRange | Assets/VoxelEngine/Scripts/CubicTerrainChunk.cs:449-461 | selected indices within the window give rebased entries in [0, n) |
| MeshSplit.RangesAt | Assets/VoxelEngine/Scripts/CubicTerrainChunk.cs:433-474 | the j-th round starts at face j × 16250 and takes min(remaining, 16250) faces |
| MeshSplit.RangesEnd | Assets/VoxelEngine/Scripts/CubicTerrainChunk.cs:433-474 | no round happens for an empty mesh, and the last round ends at the last face |
| MeshSplit.SplitAt | Assets/VoxelEngine/Scripts/CubicTerrainChunk.cs:427-476 | mesh j is the cut of its face range |
| MeshSplit.CutTakes | Assets/VoxelEngine/Scripts/CubicTerrainChunk.cs:441-461 | a cut takes the range's vertices and UVs, and its two index lists together hold all of the range's indices |
| MeshSplit.RangesTile | Assets/VoxelEngine/Scripts/CubicTerrainChunk.cs:433-474 | rounds follow one another without gaps, each takes 1..16250 faces and all but the last take 16250 |
| MeshSplit.SplitTakes | Assets/VoxelEngine/Scripts/CubicTerrainChunk.cs:441-442 | mesh j holds exactly the vertices and UVs of its face range |
| MeshSplit.AllOfPrefix | Assets/VoxelEngine/Scripts/CubicTerrainChunk.cs:427-476 | concatenating one more mesh appends its vertices and UVs |
| MeshSplit.TiledPrefix | Assets/VoxelEngine/Scripts/CubicTerrainChunk.cs:427-476 | the first k meshes concatenate to the prefix of the vertex and UV lists they cover |
| MeshSplit.TiledAll | Assets/VoxelEngine/Scripts/CubicTerrainChunk.cs:427-476 | meshes covering all faces concatenate to the whole lists |
| MeshSplit.SplitPartitions | Assets/VoxelEngine/Scripts/CubicTerrainChunk.cs:427-476 | the meshes partition the vertex and UV lists in order: their concatenation is the input |
| MeshSplit.SplitSizes | Assets/VoxelEngine/Scripts/CubicTerrainChunk.cs:437-439 | every mesh has a positive multiple of 4 vertices, at most 65000 |
| MeshSplit.IndexOfFace | Assets/VoxelEngine/Scripts/CubicTerrainChunk.cs:497-530 | index p names a vertex of face p / 6 |
| MeshSplit.EmittedIndicesByFace | Assets/VoxelEngine/Scripts/CubicTerrainChunk.cs:337-418 | emitted lists have 4 vertices per face and every index names a vertex of its own face |
| MeshSplit.CutInRange | Assets/VoxelEngine/Scripts/CubicTerrainChunk.cs:449-461 | every rebased index of a cut lies in [0, vertices of the cut) |
| MeshSplit.SplitIndicesInRange | Assets/VoxelEngine/Scripts/CubicTerrainChunk.cs:427-476 | for emitted lists every rebased index of every mesh lies in [0, n) for that mesh's n vertices |
| MeshSplit.CutKeeps | Assets/VoxelEngine/Scripts/CubicTerrainChunk.cs:456-459 | a non-negative selected index appears, rebased, in the cut's opaque list |
| MeshSplit.FirstTransparentFaceInOpaqueList | Assets/VoxelEngine/Scripts/CubicTerrainChunk.cs:449-461 | when the first face is transparent, vertex 0 ends up in the first mesh's opaque list |
| BitConverter.Pow256 | Assets/VoxelEngine/Scripts/CubicTerrainChunkFile.cs:86-88 | powers of 256 are positive |
| BitConverter.Unsigned | Assets/VoxelEngine/Scripts/CubicTerrainChunkFile.cs:86-88 | the little-endian bytes of a number have the requested count |
| BitConverter.ValueOf | Assets/VoxelEngine/Scripts/CubicTerrainChunkFile.cs:64-66 | the value of n little-endian bytes is below 256^n |
| BitConverter.ValueOfUnsigned | Assets/VoxelEngine/Scripts/CubicTerrainChunkFile.cs:64-88 | reading back the bytes of a value gives the value |
| BitConverter.UnsignedValueOf | Assets/VoxelEngine/Scripts/CubicTerrainChunkFile.cs:64-88 | writing the value of some bytes gives the bytes back |
| BitConverter.GetBytes32 | Assets/VoxelEngine/Scripts/CubicTerrainChunkFile.cs:86-87 | `GetBytes(int)` gives four bytes |
| BitConverter.GetBytes64 | Assets/VoxelEngine/Scripts/CubicTerrainChunkFile.cs:88 | `GetBytes(long)` gives eight bytes |
| BitConverter.ToInt32 | Assets/VoxelEngine/Scripts/CubicTerrainChunkFile.cs:64-65 | `ToInt32` reads four little-endian bytes as the int congruent to their value modulo 2^32, negative exactly when the top bit of the last byte is set |
| BitConverter.ToInt64 | Assets/VoxelEngine/Scripts/CubicTerrainChunkFile.cs:66 | `ToInt64` reads eight little-endian bytes as the long congruent to their value modulo 2^64, negative exactly when the top bit of the last byte is set |
| BitConverter.Int32RoundTrip | Assets/VoxelEngine/Scripts/CubicTerrainChunkFile.cs:64-65 | `ToInt32(GetBytes(v)) == v` for every int |
| BitConverter.Int32Bytes | Assets/VoxelEngine/Scripts/CubicTerrainChunkFile.cs:64-65 | `GetBytes(ToInt32(b)) == b` for every four bytes |
| BitConverter.Int64RoundTrip | Assets/VoxelEngine/Scripts/CubicTerrainChunkFile.cs:66 | `ToInt64(GetBytes(v)) == v` for every long |
| BitConverter.Int64Bytes | Assets/VoxelEngine/Scripts/CubicTerrainChunkFile.cs:66 | `GetBytes(ToInt64(b)) == b` for every eight bytes |
| ChunkFile.EncodeRecord | Assets/VoxelEngine/Scripts/CubicTerrainChunkFile.cs:86-94 | a lookup record is 16 bytes |
| ChunkFile.DecodeRecord | Assets/VoxelEngine/Scripts/CubicTerrainChunkFile.cs:64-66 | x at bytes 0..3, z at 4..7 and the offset at 8..15 decode to 32-bit keys |
| ChunkFile.DecodeEncode | Assets/VoxelEngine/Scripts/CubicTerrainChunkFile.cs:61-94 | parsing a written record yields the same (x, z, position) |
| ChunkFile.EncodeDecode | Assets/VoxelEngine/Scripts/CubicTerrainChunkFile.cs:61-94 | re-encoding a parsed record gives the same 16 bytes |
| ChunkFile.RecordFields | Assets/VoxelEngine/Scripts/CubicTerrainChunkFile.cs:64-66 | the fields of the record at offset i are bytes i..i+3, i+4..i+7 and i+8..i+15 |
| ChunkFile.ParseFrom | Assets/VoxelEngine/Scripts/CubicTerrainChunkFile.cs:54-73 | the load loop from byte i on: a successful load keeps every entry the table had; a record cut short by the end of the file fails |
| ChunkFile.ParseTable | Assets/VoxelEngine/Scripts/CubicTerrainChunkFile.cs:54-73 | the table a lookup file describes: an empty file gives an empty table, a file shorter than one record fails |
| ChunkFile.ParseFromCounts | Assets/VoxelEngine/Scripts/CubicTerrainChunkFile.cs:61-69 | a successful parse consumed a multiple of 16 bytes and added one distinct key per record |
| ChunkFile.ParseTableCounts | Assets/VoxelEngine/Scripts/CubicTerrainChunkFile.cs:61-69 | a lookup file that loads has a length that is a multiple of 16 and one table entry per record |
| ChunkFile.ParseFromAppend | Assets/VoxelEngine/Scripts/CubicTerrainChunkFile.cs:61-69 | appending the record of a new key to the file adds exactly that key and offset to the loaded table |
| ChunkFile.Zeros | Assets/VoxelEngine/Scripts/CubicTerrainChunkFile.cs:166-168 | the zero bytes a stream fills in when writing past its end |
| ChunkFile.WriteAt | Assets/VoxelEngine/Scripts/CubicTerrainChunkFile.cs:166-168 | writing a blob at a position puts the blob there, keeps the other bytes, zero-fills a gap and grows the file only as far as the blob reaches |
| ChunkFile.SetChunk | Assets/VoxelEngine/Scripts/CubicTerrainChunkFile.cs:145-173 | fails exactly when the key's stored offset is negative (the stream rejects the position); otherwise the key is in the table, every old entry keeps its offset, no other key appears, and the blob sits in the data file at the key's offset |
| ChunkFile.HasChunk | Assets/VoxelEngine/Scripts/CubicTerrainChunkFile.cs:111-114 | true exactly when `GetChunkData` finds the key |
| ChunkFile.ReadChunk | Assets/VoxelEngine/Scripts/CubicTerrainChunkFile.cs:125-137 | a missing key fails with the dictionary's error; otherwise the read succeeds exactly when the offset is not negative and the blob fits in the file, and returns the `size` bytes at that offset |
| ChunkFile.EmptyConsistent | Assets/VoxelEngine/Scripts/CubicTerrainChunkFile.cs:35-49 | an empty lookup file describes the empty table |
| ChunkFile.SetChunkConsistent | Assets/VoxelEngine/Scripts/CubicTerrainChunkFile.cs:145-173 | on a consistent store `SetChunkData` succeeds and the lookup file still describes the in-memory table |
| ChunkFile.ReadAfterSet | Assets/VoxelEngine/Scripts/CubicTerrainChunkFile.cs:111-173 | after storing, `HasChunk` is true, `GetChunkData` returns the blob just written, and the lookup file grew by one record only for a new key |
| ChunkFile.OffsetsStable | Assets/VoxelEngine/Scripts/CubicTerrainChunkFile.cs:152-164 | a known key keeps its offset; a new key gets the data-file length; no other key changes |
| ChunkFile.SetChunkDisjoint | Assets/VoxelEngine/Scripts/CubicTerrainChunkFile.cs:152-168 | with blobs of one size, the byte ranges of distinct keys stay inside the file and never overlap |
| ChunkFile.OverwriteKeepsLength | Assets/VoxelEngine/Scripts/CubicTerrainChunkFile.cs:153-157 | overwriting a known key with a blob of the common size does not grow the data file |
| ChunkFile.SetChunkKeepsOthers | Assets/VoxelEngine/Scripts/CubicTerrainChunkFile.cs:125-168 | storing one key leaves what every other key reads back unchanged |
| ChunkFile.ChunkFileStore.constructor | Assets/VoxelEngine/Scripts/CubicTerrainChunkFile.cs:35-47 | the store starts with the two files and an empty table |
| ChunkFile.ChunkFileStore.LoadLookupTable | Assets/VoxelEngine/Scripts/CubicTerrainChunkFile.cs:54-73 | the table becomes the parse of the whole lookup file; a trailing partial record or a repeated key is an error; the files are unchanged |
| ChunkFile.ChunkFileStore.WriteLookupTable | Assets/VoxelEngine/Scripts/CubicTerrainChunkFile.cs:81-103 | the lookup file grows by exactly the 16-byte record of (x, z, position); nothing else changes |
| ChunkFile.ChunkFileStore.SetChunkData | Assets/VoxelEngine/Scripts/CubicTerrainChunkFile.cs:145-173 | the store becomes `SetChunk` of the old store |
| ChunkFile.Open | Assets/VoxelEngine/Scripts/CubicTerrainChunkFile.cs:35-49 | a store opens exactly when its lookup file parses, and then holds the two files and the parsed table |
| ChunkTuples.Equals | Assets/VoxelEngine/Scripts/CubicTerrain.cs:98-108 | a null argument throws (`NullTuple`), because the null guard uses the overloaded `!=`; any other argument is equal exactly when x and z agree |
| ChunkTuples.Same | Assets/VoxelEngine/Scripts/CubicTerrain.cs:110-116 | `==` is false when either side is null, even when both are, and otherwise compares x and z |
| ChunkTuples.Differ | Assets/VoxelEngine/Scripts/CubicTerrain.cs:118-121 | `!=` is the negation of `==`, so two nulls differ |
| ChunkTuples.NullGuardPasses | Assets/VoxelEngine/Scripts/CubicTerrain.cs:98-121 | the guard `otherTuple != null` holds for a null argument, and `Equals(null)` throws instead of returning false |
| ChunkTuples.EqualsGuarded | Assets/VoxelEngine/Scripts/CubicTerrain.cs:98-108 | `Equals` with a reference null test: false for null, and otherwise the same answer as `Equals` |
| ChunkTuples.ToShort | Assets/VoxelEngine/Scripts/CubicTerrain.cs:128-131 | the `(short)` cast keeps the low 16 bits as a signed value |
| ChunkTuples.HashCode | Assets/VoxelEngine/Scripts/CubicTerrain.cs:128-131 | `GetHashCode` is x itself or -1, and it is x whenever z's low 16 bits read as a non-negative short; the exact value is `HashCodeClosedForm` |
| ChunkTuples.OrSign | Assets/VoxelEngine/Scripts/CubicTerrain.cs:128-131 | OR with all-clear bits gives the other operand; OR with all-set bits gives -1 |
| ChunkTuples.HashCodeClosedForm | Assets/VoxelEngine/Scripts/CubicTerrain.cs:128-131 | the hash is x when the low 16 bits of z are a non-negative short and -1 otherwise |
| ChunkTuples.EqualTuplesEqualHashes | Assets/VoxelEngine/Scripts/CubicTerrain.cs:98-131 | tuples that `Equals` calls equal have equal hash codes |
| ChunkTuples.HashIgnoresSmallZ | Assets/VoxelEngine/Scripts/CubicTerrain.cs:128-131 | all tuples of one x with z in 0..32767 share the hash x |
| Distances.SquareBound | Assets/VoxelEngine/Scripts/CubicTerrain.cs:283-304 | a coordinate within r of zero has a square of at most r² |
| Distances.SquareMonotone | Assets/CubicWorld/VoxelEngine/Scripts/CubicTerrain.cs:229-239 | squares do not shrink away from zero |
| Distances.WithinAxes | Assets/CubicWorld/VoxelEngine/Scripts/CubicTerrain.cs:229-239 | a distance below r keeps both offsets strictly between -r and r |
| Distances.SquareNotBeyondDouble | Assets/VoxelEngine/Scripts/CubicTerrain.cs:283-304 | every offset of the square of half-side r lies within r√2, so not beyond 2r |
| Distances.WithinNotBeyond | Assets/CubicWorld/VoxelEngine/Scripts/CubicTerrain.cs:354-379 | a distance below r is not above r |
| ColumnTerrain.GetChunkPosition | Assets/VoxelEngine/Scripts/CubicTerrain.cs:46-69 | per axis the floor of the world coordinate over the chunk size (the ceiling branches never run); y is always 0 |
| ColumnTerrain.VisitedStep | Assets/VoxelEngine/Scripts/CubicTerrain.cs:179-188 | one inner-loop step adds exactly the current (x, z) to the visited part of the box |
| ColumnTerrain.BoxNeverDistant | Assets/VoxelEngine/Scripts/CubicTerrain.cs:179-188 | no key of the preload box is beyond twice the radius |
| ColumnTerrain.CubicTerrain.MarkedDoneValid | Assets/VoxelEngine/Scripts/CubicTerrain.cs:234-242 | flipping a job's done flag keeps the jobs' grids distinct and sized |
| ColumnTerrain.CubicTerrain.GrownPresent | Assets/VoxelEngine/Scripts/CubicTerrain.cs:183-186 | a key that already has an object is skipped |
| ColumnTerrain.CubicTerrain.GrownAdded | Assets/VoxelEngine/Scripts/CubicTerrain.cs:199-223 | a newly requested key adds one object and one new job |
| ColumnTerrain.CubicTerrain.constructor | Assets/VoxelEngine/Scripts/CubicTerrain.cs:154-163 | the streamer starts with no objects and no jobs |
| ColumnTerrain.CubicTerrain.GenerateChunk | Assets/VoxelEngine/Scripts/CubicTerrain.cs:199-223 | adds exactly one fresh object and one not-done job for (x, z); a key already present in either dictionary is a duplicate-key error |
| ColumnTerrain.CubicTerrain.RequestKey | Assets/VoxelEngine/Scripts/CubicTerrain.cs:183-186 | requests a key without an object; the error case is a key with a job but no object |
| ColumnTerrain.CubicTerrain.RequestColumn | Assets/VoxelEngine/Scripts/CubicTerrain.cs:181-187 | the z loop requests every key of its column that has no object |
| ColumnTerrain.CubicTerrain.RequestChunks | Assets/VoxelEngine/Scripts/CubicTerrain.cs:177-188 | succeeds exactly when no box key has a job without an object; then every box key has an object, the new objects and not-done jobs are exactly the box keys that had none, and old entries are kept |
| ColumnTerrain.CubicTerrain.GenerationPass | Assets/VoxelEngine/Scripts/CubicTerrain.cs:228-247 | every job is marked done and nothing else changes |
| ColumnTerrain.CubicTerrain.UpdateGenerationData | Assets/VoxelEngine/Scripts/CubicTerrain.cs:253-278 | fails exactly when a done job's object is gone (the indexer throws); otherwise every done job's grid is attached to its object, which becomes dirty, the done jobs are removed, and other objects are untouched |
| ColumnTerrain.CubicTerrain.CollectGarbage | Assets/VoxelEngine/Scripts/CubicTerrain.cs:283-304 | removes exactly the objects beyond twice the radius; jobs are untouched |
| ColumnTerrain.CubicTerrain.Update | Assets/VoxelEngine/Scripts/CubicTerrain.cs:174-192 | after a successful tick every box key has an object, no object is beyond twice the radius, and no job is done; in full, the objects are the old ones plus those of the box minus the distant ones, old ones keeping their identity and new ones blank; the jobs are the pending old ones plus a new job per box key that had no object; every old object with a done job holds that job's grid and is dirty, every other old object is untouched |
| ColumnTerrain.CubicTerrain.TickMaps | Assets/VoxelEngine/Scripts/CubicTerrain.cs:174-192 | the object and job maps after the request pass, the hand-over and the collection, stated against the maps before the tick; every column of the square survives the collection |
| WorldTerrain.GetChunkPosition | Assets/CubicWorld/VoxelEngine/Scripts/CubicTerrain.cs:123-131 | per axis `floor((coord + offset) / dim)`, so `chunk*dim <= coord + offset < (chunk+1)*dim` |
| WorldTerrain.DiscInBox | Assets/CubicWorld/VoxelEngine/Scripts/CubicTerrain.cs:229-239 | every column within the radius lies in the box the loops walk |
| WorldTerrain.DiscNeverEvicted | Assets/CubicWorld/VoxelEngine/Scripts/CubicTerrain.cs:354-379 | a key whose column is within the radius is never evicted |
| WorldTerrain.OpenExtend | Assets/CubicWorld/VoxelEngine/Scripts/CubicTerrain.cs:254-280 | a column stays open to layer y when layer y has neither a job nor data |
| WorldTerrain.AddedStep | Assets/CubicWorld/VoxelEngine/Scripts/CubicTerrain.cs:254-280 | one more open layer adds exactly that key |
| WorldTerrain.ObjectsLayer | Assets/CubicWorld/VoxelEngine/Scripts/CubicTerrain.cs:254-280 | adding a layer's object keeps the object invariant of the y loop |
| WorldTerrain.VisitedStep | Assets/CubicWorld/VoxelEngine/Scripts/CubicTerrain.cs:229-239 | one inner-loop step adds the current column exactly when it is within the radius and has no layer-0 object |
| WorldTerrain.AddedUnion | Assets/CubicWorld/VoxelEngine/Scripts/CubicTerrain.cs:229-280 | the keys added for a set of columns are the union over the columns |
| WorldTerrain.AddedElsewhere | Assets/CubicWorld/VoxelEngine/Scripts/CubicTerrain.cs:229-280 | requests for other columns do not change what a column adds |
| WorldTerrain.ObjectsCompose | Assets/CubicWorld/VoxelEngine/Scripts/CubicTerrain.cs:229-280 | the objects added column by column compose |
| WorldTerrain.Delivered | Assets/CubicWorld/VoxelEngine/Scripts/CubicTerrain.cs:293-303 | the worker's grid: the stored chunk when the file has it, else the job's own grid |
| WorldTerrain.Finished | Assets/CubicWorld/VoxelEngine/Scripts/CubicTerrain.cs:293-308 | a finished job is done at the same position; a done job is left as it is; a pending one carries the delivered grid |
| WorldTerrain.PassStep | Assets/CubicWorld/VoxelEngine/Scripts/CubicTerrain.cs:293-308 | finishing one more job keeps the pass invariant: finished jobs are recorded, and grids are added to `chunkData` only for pending jobs, first write winning |
| WorldTerrain.CubicTerrain.JobsLayer | Assets/CubicWorld/VoxelEngine/Scripts/CubicTerrain.cs:254-280 | adding a layer's job keeps the job invariant of the y loop |
| WorldTerrain.CubicTerrain.GrownLayer | Assets/CubicWorld/VoxelEngine/Scripts/CubicTerrain.cs:254-280 | adding a layer's object and job keeps the loop invariant |
| WorldTerrain.CubicTerrain.GrownStop | Assets/CubicWorld/VoxelEngine/Scripts/CubicTerrain.cs:256-262 | returning at a layer with a job or data leaves all higher layers unrequested |
| WorldTerrain.CubicTerrain.constructor | Assets/CubicWorld/VoxelEngine/Scripts/CubicTerrain.cs:195-198 | the streamer starts with no objects, no data and no jobs |
| WorldTerrain.CubicTerrain.AddLayer | Assets/CubicWorld/VoxelEngine/Scripts/CubicTerrain.cs:264-279 | one layer gets a fresh blank object (unless it has one) and a fresh not-done job for its chunk origin, and the column's growth extends by that layer |
| WorldTerrain.CubicTerrain.GenerateChunk | Assets/CubicWorld/VoxelEngine/Scripts/CubicTerrain.cs:252-281 | walks the layers upwards and adds one object and one job per layer until the first layer that already has a job or data |
| WorldTerrain.CubicTerrain.JobsCompose | Assets/CubicWorld/VoxelEngine/Scripts/CubicTerrain.cs:229-280 | the jobs added column by column compose |
| WorldTerrain.CubicTerrain.RequestColumn | Assets/CubicWorld/VoxelEngine/Scripts/CubicTerrain.cs:231-238 | the z loop requests exactly the wanted columns it visits |
| WorldTerrain.CubicTerrain.RequestRow | Assets/CubicWorld/VoxelEngine/Scripts/CubicTerrain.cs:229-239 | the x loop requests exactly the wanted columns of the rows it visits |
| WorldTerrain.CubicTerrain.RequestChunks | Assets/CubicWorld/VoxelEngine/Scripts/CubicTerrain.cs:229-239 | the objects and jobs gained are exactly the requested keys: layers of columns within the radius with no layer-0 object, up to the first layer that has a job or data; old entries are kept |
| WorldTerrain.CubicTerrain.GenerationPass | Assets/CubicWorld/VoxelEngine/Scripts/CubicTerrain.cs:293-308 | every job ends done; each pending job is finished with its delivered grid, which is added to `chunkData` without overwriting any entry |
| WorldTerrain.CubicTerrain.FinishJob | Assets/CubicWorld/VoxelEngine/Scripts/CubicTerrain.cs:296-306 | one step of the worker's loop: the job becomes `Finished`, and a pending job's grid is added to `chunkData` first-write-wins |
| WorldTerrain.CubicTerrain.UpdateGenerationData | Assets/CubicWorld/VoxelEngine/Scripts/CubicTerrain.cs:320-349 | every done job whose object exists is attached (object gets the grid and becomes dirty) and removed; done jobs without an object stay; objects and data are unchanged |
| WorldTerrain.CubicTerrain.CollectGarbage | Assets/CubicWorld/VoxelEngine/Scripts/CubicTerrain.cs:354-379 | removes every object whose (x, 0, z) is beyond the radius, whatever its y, and that key's data; jobs are untouched |
| WorldTerrain.CubicTerrain.PlayerChunk | Assets/CubicWorld/VoxelEngine/Scripts/CubicTerrain.cs:225-227 | the player's chunk on the plane y = 0, whose columns contain the player |
| WorldTerrain.CubicTerrain.Update | Assets/CubicWorld/VoxelEngine/Scripts/CubicTerrain.cs:222-243 | every requested key gets an object and a new job; no object is beyond the radius; no done job keeps an object; in full, the objects are the old and requested ones minus those beyond the radius, old ones keeping their identity and new ones blank; the jobs are the old ones minus the done ones with an object, plus the requested ones; the grid map loses exactly the grids of evicted objects; every old object with a done job holds its grid and is dirty, every other old object is untouched |
| WorldTerrain.CubicTerrain.TickMaps | Assets/CubicWorld/VoxelEngine/Scripts/CubicTerrain.cs:222-243 | the object, job and grid maps after the request pass, the hand-over and the collection, stated against the maps before the tick |
| WorldTerrain.CubicTerrain.StaleBottomBlocksColumn | Assets/CubicWorld/VoxelEngine/Scripts/CubicTerrain.cs:254-262 | once layer 0 of a column has a job or data, no layer of that column is requested again |
| WorldTerrain.CubicTerrain.CollectGarbageClearing | Assets/CubicWorld/VoxelEngine/Scripts/CubicTerrain.cs:354-379 | the intended collection: objects, grids and jobs of every column beyond the radius are dropped, all others kept |
| WorldTerrain.CubicTerrain.ClearedColumnRequested | Assets/CubicWorld/VoxelEngine/Scripts/CubicTerrain.cs:228-262 | after the intended collection, a dropped column that is back within the radius without a layer-0 object has every layer requested |
| WorldTerrain.CubicTerrain.CellOf | Assets/CubicWorld/VoxelEngine/Scripts/CubicTerrain.cs:399-420 | a world coordinate splits into its chunk key and local coordinates in [0, dim) with `coord == chunk*dim + local` |
| WorldTerrain.CubicTerrain.CellOfCorner | Assets/CubicWorld/VoxelEngine/Scripts/CubicTerrain.cs:399-420 | the split is unique: a chunk corner plus an in-range offset splits back into them |
| WorldTerrain.CubicTerrain.GetBlock | Assets/CubicWorld/VoxelEngine/Scripts/CubicTerrain.cs:399-420 | null when the containing chunk has no data, otherwise the cell at the local coordinates |
| WorldTerrain.CubicTerrain.BlockAtCell | Assets/CubicWorld/VoxelEngine/Scripts/CubicTerrain.cs:399-420 | the block at a chunk corner plus an offset is that chunk's cell, or null without data |
| WorldTerrain.CubicTerrain.SetBlock | Assets/CubicWorld/VoxelEngine/Scripts/CubicTerrain.cs:428-452 | with the chunk present, reading back gives the new id and the grid is dirty; only the addressed cell changes; without the chunk nothing changes |
| WorldTerrain.CubicTerrain.HasBlock | Assets/CubicWorld/VoxelEngine/Scripts/CubicTerrain.cs:462-483 | true exactly when `GetBlock` finds a non-null cell with a non-negative id, so false without the chunk |
| FlatGenerator.FlatIdempotent | Assets/VoxelEngine/Scripts/Generators/FlatGenerator.cs:12-15 | running the fill twice gives the same cell |
| FlatGenerator.GenerateTerrainData | Assets/VoxelEngine/Scripts/Generators/FlatGenerator.cs:6-18 | every cell with y < 3 gets block 1 and cells with y ≥ 3 are untouched, independently of the chunk position; on a grid with columns but fewer than 3 layers the write above the top throws (IndexOutOfRange) after filling the first column and nothing else |
| FlatGenerator.FillSlice | Assets/VoxelEngine/Scripts/Generators/FlatGenerator.cs:10-16 | one x slice is filled and other slices are untouched; a grid lower than 3 layers throws after the slice's first column |
| FlatGenerator.FillColumn | Assets/VoxelEngine/Scripts/Generators/FlatGenerator.cs:12-15 | one column gets its ground cells and other cells are untouched; it throws exactly when the grid has fewer than 3 layers, after filling every layer it has |
| WorldFlatGenerator.LayeredIdempotent | Assets/CubicWorld/VoxelEngine/Scripts/Generators/FlatGenerator.cs:21-36 | running the fill twice gives the same cell |
| WorldFlatGenerator.HighChunkUntouched | Assets/CubicWorld/VoxelEngine/Scripts/Generators/FlatGenerator.cs:30-33 | a chunk whose origin y is at least 4 is left unchanged |
| WorldFlatGenerator.GenerateTerrainData | Assets/CubicWorld/VoxelEngine/Scripts/Generators/FlatGenerator.cs:21-36 | a cell gets block 2 exactly when `y + worldspace.y < 4`, and all other cells are untouched; x and z of the position play no part |
| WorldFlatGenerator.FillSlice | Assets/CubicWorld/VoxelEngine/Scripts/Generators/FlatGenerator.cs:23-35 | one x slice is filled; other slices are untouched |
| WorldFlatGenerator.FillRun | Assets/CubicWorld/VoxelEngine/Scripts/Generators/FlatGenerator.cs:25-34 | one (x, y) run is filled; other cells are untouched |

## Left out

- Unity is not modelled:
  - GameObjects, components, materials, mesh upload and colliders;
  - `Start`, `OnDestroy` and `master`;
  - the uploading half of `FixedUpdate`.

  A chunk object is a `TerrainChunk` holding its grid, its flag and its pending meshes.
- Threads, locks, `Thread.Sleep` and `Thread.Abort` are not modelled. The generation worker is modelled as one sequential pass (`GenerationPass`), and the mesh thread as one call (`Refresh`). Interleavings are not modelled.
- Floating point is not modelled. Player positions, `Vector3` chunk positions and the two floored hit positions of `GetBlockHitInfo` are integers. `GetBlockPosition`, raycasting and `GetWorldspaceCenterPosition` are left out.
- File I/O is not modelled. Both files are byte sequences. `File.Exists`/`File.Create` become the caller passing empty sequences.
- The chunk blob is an opaque byte sequence, because `SerializeChunk`/`DeserializeChunk` are not part of this model. `ChunkFile.ReadChunk` takes the blob size as a parameter.
- ChunkFile.ChunkFileStore.LoadLookupTable: on a bad file the model reports an error and does not keep the partly filled table, which the source leaves behind when `Add` or `ToInt64` throws midway.
- The CubicWorld streamer's terrain file uses a 3-argument chunk-file API that is not part of this model. `GenerationPass` receives the chunks the file holds as the map `stored`. The save inside `GenerateMesh` (CubicTerrainChunk.cs:423-424) is left out.
- What the terrain generator writes into a job's grid is not modelled. The generation passes leave the cells untouched and model only the job and data bookkeeping. The two flat generators are modelled on their own.
- `GetUvsForFace`, the texture atlas and UV rectangles are not modelled. A UV entry is the triple (block, face, corner).
- Transparency is a set of block ids passed to the mesh pass. It stands in for two reads: the per-block `transparentBlock` lookup in `WriteSideData`, and the cell's own `transparent` field that the culling test and the counters read (CubicTerrainChunk.cs:363 and 367). That field, like `rotation`, is not in the `VoxelData` of CubicTerrainData.cs:7-15 but in a later revision of it; the model takes both reads to agree.
- ChunkMesh.WriteSideData: a solid cell whose block id is not registered is meshed like any other. In the source `Blocks.GetBlock` returns null for it (Assets/VoxelEngine/Scripts/Blocks/Blocks.cs:152-155), and `GetUvsForFace` then throws NullReferenceException (CubicTerrainChunk.cs:499-500), ending `ChunkMesh.GenerateMesh` as well. The model assumes every solid id is registered.
- ChunkFaces.TransformFacing: the cell's rotation is a parameter. The source reads it through `GetVoxel(x, y, z).rotation` (CubicTerrainChunk.cs:613), which throws IndexOutOfRangeException for coordinates outside the grid and NullReferenceException for an empty cell; those two paths are not modelled.
- `GetChunkObject` in both streamers is not modelled. Both versions index a dictionary directly (Assets/VoxelEngine/Scripts/CubicTerrain.cs:314 on a `Dictionary`, Assets/CubicWorld/VoxelEngine/Scripts/CubicTerrain.cs:389 through `List3D`'s indexer at Assets/VoxelEngine/Scripts/List3D.cs:21-24), so an absent key throws KeyNotFoundException; this lookup is used only by demo scripts.
- The noise generators, pathfinding, physics and demo scripts are not part of this model.
- MeshSplit.Split: requires a vertex count that is a multiple of 4. The mesh pass always produces one, and the model does not describe the splitter's endless loop on 1 to 3 leftover vertices.
- ChunkTuples.HashCode: the OR with a sign mask is modelled only for the two masks the 16-bit shift can produce (0 and -1), not as general 32-bit OR.
- WorldTerrain.CubicTerrain.CellOf: chunk coordinates are unbounded integers. Overflow of `chunk * dim` for world coordinates near the 32-bit limits is not modelled.
- List3D.List3D.Get: requires the key to be present. The source throws `KeyNotFoundException` otherwise.
- WorldTerrain.CubicTerrain.SetBlock: the "other cells unchanged" clause quantifies over the grids held in `chunkData`. It does not exclude one grid object being stored under two keys.
- ColumnTerrain.CubicTerrain.UpdateGenerationData: on the missing-object error the contract states only that the job table is unchanged. It does not say which objects the loop had already attached before the indexer threw.
- TerrainGrid.Rotation: a cell's rotation is 0 to 3. A byte rotation from 4 to 255 is not modelled; the mesher would index `rotationMappings` out of range with it (CubicTerrainChunk.cs:360 and 614) and throw `IndexOutOfRangeException`.
- ColumnTerrain.CubicTerrain.Update: the contract describes only a tick without error. After a duplicate-key or missing-object error it states only that the streamer stays well formed.

## Findings

| source | as written | input that shows it | evidently intended | confidence | as-written member | corrected member |
|---|---|---|---|---|---|---|
| Assets/CubicWorld/VoxelEngine/Scripts/CubicTerrain.cs:354-379 | `CollectGarbage` drops the objects of far columns and the grids stored under those objects' keys, but not their jobs; the hand-over (lines 330-337) removes a job only when its object exists | the player moves more than R away while the job of (x, 0, z) is still pending: the job stays, the worker then adds its grid to `chunkData` with no object left to drop it, and `GenerateChunk` (lines 256-257) returns at layer 0 for that column on every later tick, so the column is never shown again | a dropped column loses its jobs and grids too, so it is generated again when the player returns | not executed | WorldTerrain.CubicTerrain.StaleBottomBlocksColumn | WorldTerrain.CubicTerrain.CollectGarbageClearing |
| Assets/VoxelEngine/Scripts/CubicTerrain.cs:98-121 | `Equals` guards against null with `otherTuple != null`, which calls the class's own `operator !=`, that is `!(a == b)`; `operator ==` is false whenever a side is null, so the guard always holds | `t.Equals(null)`: the guard passes and reading `otherTuple.x` throws NullReferenceException; the `return false` at line 107 is never reached | a null argument is simply not equal, as the guard and its `return false` say | not executed | ChunkTuples.NullGuardPasses | ChunkTuples.EqualsGuarded |
| Assets/VoxelEngine/Scripts/CubicTerrainChunk.cs:506-510 | a transparent block's indices are stored as `-(counter + i)`, and the splitter (lines 449-461) sends negative indices to the transparent list | a chunk whose first emitted face belongs to a transparent block: its index for vertex 0 is `-0 == 0`, so the splitter puts it in the opaque list | the sign marks every index of a transparent face, vertex 0 included, e.g. by storing `-(v + 1)` | not executed | MeshSplit.FirstTransparentFaceInOpaqueList | MeshProperties.TagShifted |

`MeshProperties.FirstTransparentFaceLeaks` and
`MeshSplit.FirstTransparentFaceInOpaqueList` exhibit the defect on the
emitted lists. `MeshProperties.TagShifted` with `UntagShifted` is the
corrected tag: the sign is negative exactly for transparent faces, and
every vertex, 0 included, is recovered. The mesh pass itself keeps the
shipped encoding, so that its properties describe the engine as it runs.

`ChunkTuples.Equals` models the throwing `Equals` as shipped, since
`operator ==` calls it; `ChunkTuples.EqualsGuarded` is the intended
comparison, and the hash-consistency lemma `EqualTuplesEqualHashes` is
stated with it.

`WorldTerrain.CubicTerrain.Update`'s contract shows the leftover: jobs of
dropped objects stay in the job table. `StaleBottomBlocksColumn` shows that
a job or grid left on layer 0 keeps its column from ever being requested.
`CollectGarbageClearing` is the intended collection, and
`ClearedColumnRequested` proves that a column it dropped is requested in
full once it is back within the radius. `Update` keeps the shipped
collection, for the same reason as above.
