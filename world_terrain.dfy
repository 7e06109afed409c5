/** The layered chunk streamer: chunks are keyed by (x, y, z) in sparse
    3-D maps, a requested column gets one chunk per layer up to
    `chunksOnYAxis`, chunks are requested within distance R of the player's
    column and dropped beyond R, and finished grids are kept in a map of
    their own through which blocks are read and written by world
    coordinate. The terrain object always sits at the world origin, so the
    offset added in `GetChunkPosition` is zero. */
module WorldTerrain {

  import opened Wrappers
  import opened TerrainGrid
  import opened ChunkFaces
  import opened List3D
  import opened TerrainChunks
  import opened Distances

  /** A generation job: the grid being filled, whether the worker is done
      with it, and the world position of the chunk's corner. */
  datatype GenerationJob = GenerationJob(terrainChunkData: TerrainData, done: bool, worldspace: Vec3)

  /** The terrain object's position, which `Start` resets to the origin. */
  const Origin: Vec3 := Vec3(0, 0, 0)

  /** `GetChunkPosition`: the chunk holding a world position, flooring per
      axis after adding the terrain's offset. */
  function GetChunkPosition(worldspace: Vec3, offset: Vec3, chunkWidth: int, chunkHeight: int, chunkDepth: int): (c: Vec3)
    requires chunkWidth > 0 && chunkHeight > 0 && chunkDepth > 0
    ensures c.x * chunkWidth <= worldspace.x + offset.x < (c.x + 1) * chunkWidth
    ensures c.y * chunkHeight <= worldspace.y + offset.y < (c.y + 1) * chunkHeight
    ensures c.z * chunkDepth <= worldspace.z + offset.z < (c.z + 1) * chunkDepth
  {
    Vec3((worldspace.x + offset.x) / chunkWidth, (worldspace.y + offset.y) / chunkHeight, (worldspace.z + offset.z) / chunkDepth)
  }

  /** `Update`'s test: column (x, z) lies within distance R of `center`. */
  predicate InDisc(x: int, z: int, center: Vec3, radius: int)
  {
    Within(Dist2(x - center.x, z - center.z), radius)
  }

  /** `CollectGarbage`'s test: the chunk's column lies further than R from
      `center`; its layer does not matter. */
  predicate Evicted(k: ListIndex, center: Vec3, radius: int)
  {
    Beyond(Dist2(k.x - center.x, k.z - center.z), radius)
  }

  /** A column within distance R lies in the square `Update` walks. */
  lemma DiscInBox(x: int, z: int, center: Vec3, radius: int)
    requires InDisc(x, z, center, radius)
    ensures center.x - radius <= x <= center.x + radius && center.z - radius <= z <= center.z + radius
  {
    WithinAxes(x - center.x, z - center.z, radius);
  }

  /** Nothing `Update` requests is dropped by the `CollectGarbage` of the
      same tick. */
  lemma DiscNeverEvicted(k: ListIndex, center: Vec3, radius: int)
    requires InDisc(k.x, k.z, center, radius)
    ensures !Evicted(k, center, radius)
  {
    WithinNotBeyond(Dist2(k.x - center.x, k.z - center.z), radius);
  }

  /** Layers 0 .. y of column (x, z) have neither a job nor a grid. */
  ghost predicate Open<J, D>(jobs: map<ListIndex, J>, data: map<ListIndex, D>, x: int, z: int, y: int)
  {
    forall y' :: 0 <= y' <= y ==> ListIndex(x, y', z) !in jobs && ListIndex(x, y', z) !in data
  }

  /** A free layer on top of free layers extends them. */
  lemma OpenExtend<J, D>(jobs: map<ListIndex, J>, data: map<ListIndex, D>, x: int, y: int, z: int)
    requires 0 <= y && Open(jobs, data, x, z, y - 1)
    requires ListIndex(x, y, z) !in jobs && ListIndex(x, y, z) !in data
    ensures Open(jobs, data, x, z, y)
  {
    forall y' | 0 <= y' <= y
      ensures ListIndex(x, y', z) !in jobs && ListIndex(x, y', z) !in data
    {
      if y' < y {
        assert 0 <= y' <= y - 1;
      }
    }
  }

  /** The chunks `GenerateChunk` adds for the columns `cols` when run on jobs
      `j` and grids `d`: each layer below `top` whose own and lower layers
      were all free. */
  ghost predicate Added<J, D>(k: ListIndex, j: map<ListIndex, J>, d: map<ListIndex, D>, cols: set<(int, int)>, top: int)
  {
    (k.x, k.z) in cols && 0 <= k.y < top && Open(j, d, k.x, k.z, k.y)
  }

  /** Relative to objects `o`, the map `objs` holds an object for each
      chunk `Added` for `cols` below `top`, and no entry of `o` changed. */
  ghost predicate ObjectsGrown<V, J, D>(objs: map<ListIndex, V>, o: map<ListIndex, V>, j: map<ListIndex, J>,
                                        d: map<ListIndex, D>, cols: set<(int, int)>, top: int)
  {
    (forall k :: k in objs <==> k in o || Added(k, j, d, cols, top)) && Extends(o, objs)
  }

  /** Over free layers, the layers added below y + 1 are those below y and
      layer y. */
  lemma AddedStep<J, D>(j: map<ListIndex, J>, d: map<ListIndex, D>, x: int, y: int, z: int)
    requires 0 <= y && Open(j, d, x, z, y)
    ensures forall k :: Added(k, j, d, {(x, z)}, y + 1) <==> Added(k, j, d, {(x, z)}, y) || k == ListIndex(x, y, z)
  {
  }

  /** `List3D.Add` of an object for a free layer extends the object growth by it. */
  lemma ObjectsLayer<V, J, D>(objs: map<ListIndex, V>, o: map<ListIndex, V>, j: map<ListIndex, J>, d: map<ListIndex, D>,
                              x: int, y: int, z: int, v: V)
    requires 0 <= y && ObjectsGrown(objs, o, j, d, {(x, z)}, y) && Open(j, d, x, z, y)
    ensures ObjectsGrown(AddFirst(objs, ListIndex(x, y, z), v), o, j, d, {(x, z)}, y + 1)
  {
    AddedStep(j, d, x, y, z);
  }

  /** Each key has its own chunk object. */
  ghost predicate ObjectsDistinct(m: map<ListIndex, TerrainChunk>)
  {
    forall k1, k2 :: k1 in m && k2 in m && k1 != k2 ==> m[k1] != m[k2]
  }

  /** `m2` keeps every entry of `m1`. */
  ghost predicate Extends<K, V>(m1: map<K, V>, m2: map<K, V>)
  {
    forall k :: k in m1 ==> k in m2 && m2[k] == m1[k]
  }

  /** The columns of the square around `center` that `Update`'s loops have
      visited before (x, z). */
  predicate Visited(c: (int, int), center: Vec3, radius: int, x: int, z: int)
  {
    || (center.x - radius <= c.0 < x && center.z - radius <= c.1 <= center.z + radius)
    || (c.0 == x && center.z - radius <= c.1 < z)
  }

  /** Column `c` lies within distance R of `center` and had no object on
      layer 0 in `o`: `Update` passes it to `GenerateChunk`. */
  predicate Wanted(c: (int, int), center: Vec3, radius: int, o: map<ListIndex, TerrainChunk>)
  {
    InDisc(c.0, c.1, center, radius) && ListIndex(c.0, 0, c.1) !in o
  }

  /** Visiting (x, z) adds that column to the wanted ones exactly when it
      is wanted. */
  lemma VisitedStep(v: set<(int, int)>, center: Vec3, radius: int, o: map<ListIndex, TerrainChunk>, x: int, z: int)
    requires center.z - radius <= z <= center.z + radius
    requires forall c :: c in v <==> Visited(c, center, radius, x, z) && Wanted(c, center, radius, o)
    ensures forall c :: c in v + (if Wanted((x, z), center, radius, o) then {(x, z)} else {}) <==>
                        Visited(c, center, radius, x, z + 1) && Wanted(c, center, radius, o)
  {
  }

  /** The columns added for `v` and for one more column `c` are those added
      for `v + {c}`. */
  lemma AddedUnion<J, D>(j: map<ListIndex, J>, d: map<ListIndex, D>, v: set<(int, int)>, c: (int, int), top: int)
    ensures forall k :: Added(k, j, d, v + {c}, top) <==> Added(k, j, d, v, top) || Added(k, j, d, {c}, top)
  {
  }

  /** Growth for other columns leaves the layers of column `c` as they were. */
  lemma AddedElsewhere<J, D>(j1: map<ListIndex, J>, j: map<ListIndex, J>, d: map<ListIndex, D>,
                             v: set<(int, int)>, c: (int, int), top: int)
    requires c !in v
    requires forall k :: k in j1 <==> k in j || Added(k, j, d, v, top)
    ensures forall k :: Added(k, j1, d, {c}, top) <==> Added(k, j, d, {c}, top)
  {
    forall y ensures ListIndex(c.0, y, c.1) in j1 <==> ListIndex(c.0, y, c.1) in j {
      assert !Added(ListIndex(c.0, y, c.1), j, d, v, top);
    }
  }

  /** Object growth for `v` followed by growth for a new column `c`. */
  lemma ObjectsCompose<V, J>(objs2: map<ListIndex, V>, objs1: map<ListIndex, V>, o: map<ListIndex, V>,
                             jobs1: map<ListIndex, J>, j: map<ListIndex, J>, d: map<ListIndex, TerrainData>,
                             v: set<(int, int)>, c: (int, int), top: int)
    requires c !in v && (forall k :: k in jobs1 <==> k in j || Added(k, j, d, v, top))
    requires ObjectsGrown(objs1, o, j, d, v, top) && ObjectsGrown(objs2, objs1, jobs1, d, {c}, top)
    ensures ObjectsGrown(objs2, o, j, d, v + {c}, top)
  {
    AddedElsewhere(jobs1, j, d, v, c, top);
    AddedUnion(j, d, v, c, top);
  }

  /** The grid a finished job hands over: the stored grid when the terrain
      file holds chunk `k`, otherwise the job's own grid. */
  function Delivered(k: ListIndex, job: GenerationJob, stored: map<ListIndex, TerrainData>): (g: TerrainData)
    ensures k in stored ==> g == stored[k]
    ensures k !in stored ==> g == job.terrainChunkData
  {
    if k in stored then stored[k] else job.terrainChunkData
  }

  /** A job after one generation pass: not-done jobs are finished with
      their delivered grid, done ones stay as they were. */
  function Finished(k: ListIndex, job: GenerationJob, stored: map<ListIndex, TerrainData>): (r: GenerationJob)
    ensures r.done && r.worldspace == job.worldspace
    ensures job.done ==> r == job
    ensures !job.done ==> r.terrainChunkData == Delivered(k, job, stored)
  {
    if job.done then job else job.(terrainChunkData := Delivered(k, job, stored), done := true)
  }

  /** Floor division has a single remainder in [0, w): equal sums of a
      multiple of w and such a remainder have equal parts. */
  lemma DivisionUnique(a: int, b: int, w: int, i: int, j: int)
    requires w > 0 && 0 <= i < w && 0 <= j < w && a * w + i == b * w + j
    ensures a == b && i == j
  {
    assert (a - b) * w == j - i by {
      assert a * w - b * w == (a - b) * w;
    }
    if a > b {
      AtLeastOnce(a - b, w);
    } else if a < b {
      AtLeastOnce(b - a, w);
    }
  }

  /** A positive multiple of w is at least w. */
  lemma AtLeastOnce(t: int, w: int)
    requires t >= 1 && w > 0
    ensures t * w >= w
  {
    assert t * w == (t - 1) * w + w;
    assert (t - 1) * w >= 0;
  }

  /** Relative to jobs `j0` and grids `d0`, the worker has handled every
      job outside `pending`: each is finished, each grid it delivered joined
      the grid map under its key unless the key had one, and nothing else
      changed. */
  ghost predicate Passed(jobs: map<ListIndex, GenerationJob>, data: map<ListIndex, TerrainData>,
                         j0: map<ListIndex, GenerationJob>, d0: map<ListIndex, TerrainData>,
                         stored: map<ListIndex, TerrainData>, pending: set<ListIndex>)
  {
    && jobs.Keys == j0.Keys
    && (forall k :: k in jobs ==> jobs[k] == if k in pending then j0[k] else Finished(k, j0[k], stored))
    && (forall k :: k in data <==> k in d0 || (k in j0 && k !in pending && !j0[k].done))
    && Extends(d0, data)
    && (forall k :: k in data && k !in d0 ==> k !in pending && data[k] == jobs[k].terrainChunkData)
  }

  /** Handling one pending job keeps `Passed` with that job no longer pending. */
  lemma PassStep(jobs: map<ListIndex, GenerationJob>, data: map<ListIndex, TerrainData>,
                 j0: map<ListIndex, GenerationJob>, d0: map<ListIndex, TerrainData>,
                 stored: map<ListIndex, TerrainData>, pending: set<ListIndex>, k: ListIndex)
    requires Passed(jobs, data, j0, d0, stored, pending) && k in pending && k in jobs
    ensures Passed(jobs[k := Finished(k, jobs[k], stored)],
                   if jobs[k].done then data else AddFirst(data, k, Delivered(k, jobs[k], stored)),
                   j0, d0, stored, pending - {k})
  {
  }

  class CubicTerrain {
    const chunkPreloadRadius: int
    const chunkWidth: int
    const chunkHeight: int
    const chunkDepth: int
    /** The number of chunk layers: the world is `chunksOnYAxis * chunkHeight` high. */
    const chunksOnYAxis: int
    var chunkObjects: map<ListIndex, TerrainChunk>
    var chunkData: map<ListIndex, TerrainData>
    var generationJobs: map<ListIndex, GenerationJob>

    /** The dimensions are usable, every key has its own chunk object, and
        every grid, in a job or in the grid map, has the configured size. */
    ghost predicate Valid()
      reads this
    {
      && chunkWidth > 0 && chunkHeight > 0 && chunkDepth > 0
      && ObjectsDistinct(chunkObjects) && JobsSized(generationJobs) && DataSized(chunkData)
    }

    /** A grid of the configured size. */
    predicate Sized(g: TerrainData)
    {
      g.Valid() && g.width == chunkWidth && g.height == chunkHeight && g.depth == chunkDepth
    }

    predicate JobsSized(j: map<ListIndex, GenerationJob>)
    {
      forall k :: k in j ==> Sized(j[k].terrainChunkData)
    }

    predicate DataSized(d: map<ListIndex, TerrainData>)
    {
      forall k :: k in d ==> Sized(d[k])
    }

    /** The world position of the corner of chunk `k`. */
    function ChunkOrigin(k: ListIndex): Vec3
    {
      Vec3(Origin.x + k.x * chunkWidth, Origin.y + k.y * chunkHeight, Origin.z + k.z * chunkDepth)
    }

    /** A job as `GenerateChunk` creates it for chunk `k`. */
    predicate NewJob(job: GenerationJob, k: ListIndex)
    {
      !job.done && Sized(job.terrainChunkData) && job.worldspace == ChunkOrigin(k)
    }

    /** Relative to jobs `j`, the map `jobs` holds a job as `GenerateChunk`
        creates it for each chunk `Added` for `cols` below `top`, and
        nothing else changed. */
    ghost predicate JobsGrown(jobs: map<ListIndex, GenerationJob>, j: map<ListIndex, GenerationJob>,
                              d: map<ListIndex, TerrainData>, cols: set<(int, int)>, top: int)
    {
      && (forall k :: k in jobs <==> k in j || Added(k, j, d, cols, top))
      && Extends(j, jobs)
      && (forall k :: k in jobs && k !in j ==> NewJob(jobs[k], k))
    }

    /** Objects and jobs both grew by the chunks `Added` for `cols` below
        `top`, relative to objects `o`, jobs `j` and grids `d`. */
    ghost predicate Grown(objs: map<ListIndex, TerrainChunk>, jobs: map<ListIndex, GenerationJob>,
                          o: map<ListIndex, TerrainChunk>, j: map<ListIndex, GenerationJob>, d: map<ListIndex, TerrainData>,
                          cols: set<(int, int)>, top: int)
    {
      ObjectsGrown(objs, o, j, d, cols, top) && JobsGrown(jobs, j, d, cols, top)
    }

    /** The chunks one `Update` around `center` requests: every layer of a
        column within distance R that had no object on layer 0, as far up
        as the layers are free. */
    ghost predicate Requested(k: ListIndex, center: Vec3, o: map<ListIndex, TerrainChunk>,
                              j: map<ListIndex, GenerationJob>, d: map<ListIndex, TerrainData>)
    {
      && InDisc(k.x, k.z, center, chunkPreloadRadius) && ListIndex(k.x, 0, k.z) !in o
      && 0 <= k.y < chunksOnYAxis && Open(j, d, k.x, k.z, k.y)
    }

    /** A new job for a free layer extends the job growth by it. */
    lemma JobsLayer(jobs: map<ListIndex, GenerationJob>, j: map<ListIndex, GenerationJob>, d: map<ListIndex, TerrainData>,
                    x: int, y: int, z: int, job: GenerationJob)
      requires 0 <= y && JobsGrown(jobs, j, d, {(x, z)}, y) && Open(j, d, x, z, y)
      requires ListIndex(x, y, z) !in jobs && NewJob(job, ListIndex(x, y, z))
      ensures JobsGrown(AddFirst(jobs, ListIndex(x, y, z), job), j, d, {(x, z)}, y + 1)
    {
      AddedStep(j, d, x, y, z);
    }

    /** Adding a free layer y of column (x, z) extends the growth by it. */
    lemma GrownLayer(objs: map<ListIndex, TerrainChunk>, jobs: map<ListIndex, GenerationJob>,
                     o: map<ListIndex, TerrainChunk>, j: map<ListIndex, GenerationJob>, d: map<ListIndex, TerrainData>,
                     x: int, y: int, z: int, chunk: TerrainChunk, job: GenerationJob)
      requires 0 <= y && Grown(objs, jobs, o, j, d, {(x, z)}, y) && Open(j, d, x, z, y - 1)
      requires ListIndex(x, y, z) !in jobs && ListIndex(x, y, z) !in d && NewJob(job, ListIndex(x, y, z))
      ensures Open(j, d, x, z, y)
      ensures Grown(AddFirst(objs, ListIndex(x, y, z), chunk), AddFirst(jobs, ListIndex(x, y, z), job), o, j, d, {(x, z)}, y + 1)
    {
      assert ListIndex(x, y, z) !in j;
      OpenExtend(j, d, x, y, z);
      ObjectsLayer(objs, o, j, d, x, y, z, chunk);
      JobsLayer(jobs, j, d, x, y, z, job);
    }

    /** A taken layer y of column (x, z) ends the growth: no layer from y
        up is ever added. */
    lemma GrownStop(objs: map<ListIndex, TerrainChunk>, jobs: map<ListIndex, GenerationJob>,
                    o: map<ListIndex, TerrainChunk>, j: map<ListIndex, GenerationJob>, d: map<ListIndex, TerrainData>,
                    x: int, y: int, z: int, top: int)
      requires 0 <= y < top && Grown(objs, jobs, o, j, d, {(x, z)}, y)
      requires ListIndex(x, y, z) in jobs || ListIndex(x, y, z) in d
      ensures Grown(objs, jobs, o, j, d, {(x, z)}, top)
    {
      var key := ListIndex(x, y, z);
      assert !Added(key, j, d, {(x, z)}, y);
      assert key in j || key in d;
      forall k
        ensures Added(k, j, d, {(x, z)}, top) <==> Added(k, j, d, {(x, z)}, y)
      {
      }
    }

    /** A terrain with the given settings and no chunks. */
    constructor (chunkPreloadRadius: int, chunkWidth: int, chunkHeight: int, chunkDepth: int, chunksOnYAxis: int)
      requires chunkWidth > 0 && chunkHeight > 0 && chunkDepth > 0
      ensures Valid() && chunkObjects == map[] && chunkData == map[] && generationJobs == map[]
      ensures this.chunkPreloadRadius == chunkPreloadRadius && this.chunksOnYAxis == chunksOnYAxis
      ensures this.chunkWidth == chunkWidth && this.chunkHeight == chunkHeight && this.chunkDepth == chunkDepth
    {
      this.chunkPreloadRadius := chunkPreloadRadius;
      this.chunkWidth, this.chunkHeight, this.chunkDepth := chunkWidth, chunkHeight, chunkDepth;
      this.chunksOnYAxis := chunksOnYAxis;
      chunkObjects := map[];
      chunkData := map[];
      generationJobs := map[];
    }

    /** One layer of `GenerateChunk`: a new chunk object (kept only if the
        key has none) and a job with a fresh empty grid at the chunk's
        corner. Relative to the maps `o` and `j` the column started from, the
        growth of `GenerateChunk` extends by this layer. */
    method AddLayer(x: int, y: int, z: int, ghost o: map<ListIndex, TerrainChunk>, ghost j: map<ListIndex, GenerationJob>)
      returns (terrainChunk: TerrainChunk, job: GenerationJob)
      requires Valid() && ListIndex(x, y, z) !in generationJobs && ListIndex(x, y, z) !in chunkData
      requires 0 <= y && Grown(chunkObjects, generationJobs, o, j, chunkData, {(x, z)}, y) && Open(j, chunkData, x, z, y - 1)
      modifies this
      ensures Valid() && chunkData == old(chunkData)
      ensures fresh(terrainChunk) && terrainChunk.Blank() && fresh(job.terrainChunkData) && NewJob(job, ListIndex(x, y, z))
      ensures chunkObjects == AddFirst(old(chunkObjects), ListIndex(x, y, z), terrainChunk)
      ensures generationJobs == AddFirst(old(generationJobs), ListIndex(x, y, z), job)
      ensures Open(j, chunkData, x, z, y) && Grown(chunkObjects, generationJobs, o, j, chunkData, {(x, z)}, y + 1)
    {
      var chunkPosition := Vec3(Origin.x + x * chunkWidth, Origin.y + y * chunkHeight, Origin.z + z * chunkDepth);
      terrainChunk := new TerrainChunk();
      var grid := new TerrainData(chunkWidth, chunkHeight, chunkDepth);
      job := GenerationJob(grid, false, chunkPosition);
      GrownLayer(chunkObjects, generationJobs, o, j, chunkData, x, y, z, terrainChunk, job);
      chunkObjects := AddFirst(chunkObjects, ListIndex(x, y, z), terrainChunk);
      generationJobs := AddFirst(generationJobs, ListIndex(x, y, z), job);
    }

    /** `GenerateChunk`: walks the layers of column (x, z) upwards, giving
        each an object (unless it has one) and a job with a fresh empty grid,
        and stops at the first layer that already has a job or a grid. */
    method GenerateChunk(x: int, z: int)
      requires Valid()
      modifies this
      ensures Valid() && chunkData == old(chunkData)
      ensures Grown(chunkObjects, generationJobs, old(chunkObjects), old(generationJobs), old(chunkData), {(x, z)}, chunksOnYAxis)
      ensures forall k :: k in chunkObjects && k !in old(chunkObjects) ==> fresh(chunkObjects[k]) && chunkObjects[k].Blank()
      ensures forall k :: k in generationJobs && k !in old(generationJobs) ==> fresh(generationJobs[k].terrainChunkData)
    {
      ghost var o, j := chunkObjects, generationJobs;
      var y := 0;
      while y < chunksOnYAxis
        invariant 0 <= y && (y == 0 || y <= chunksOnYAxis)
        invariant Valid() && chunkData == old(chunkData)
        invariant Open(j, chunkData, x, z, y - 1)
        invariant Grown(chunkObjects, generationJobs, o, j, chunkData, {(x, z)}, y)
        invariant forall k :: k in chunkObjects && k !in o ==> fresh(chunkObjects[k]) && chunkObjects[k].Blank()
        invariant forall k :: k in generationJobs && k !in j ==> fresh(generationJobs[k].terrainChunkData)
      {
        var key := ListIndex(x, y, z);
        if key in generationJobs || key in chunkData {
          GrownStop(chunkObjects, generationJobs, o, j, chunkData, x, y, z, chunksOnYAxis);
          return;
        }
        var terrainChunk, job := AddLayer(x, y, z, o, j);
        y := y + 1;
      }
      assert forall k :: Added(k, j, chunkData, {(x, z)}, chunksOnYAxis) <==> Added(k, j, chunkData, {(x, z)}, y);
    }

    /** Job growth for `v` followed by growth for a new column `c`. */
    lemma JobsCompose(jobs2: map<ListIndex, GenerationJob>, jobs1: map<ListIndex, GenerationJob>, j: map<ListIndex, GenerationJob>,
                      d: map<ListIndex, TerrainData>, v: set<(int, int)>, c: (int, int), top: int)
      requires c !in v && JobsGrown(jobs1, j, d, v, top) && JobsGrown(jobs2, jobs1, d, {c}, top)
      ensures JobsGrown(jobs2, j, d, v + {c}, top)
    {
      AddedElsewhere(jobs1, j, d, v, c, top);
      AddedUnion(j, d, v, c, top);
    }

    /** One step of `Update`'s request loops: column (x, z) is generated
        when it lies within distance R and has no object on layer 0. `v`
        holds the wanted columns visited before it, `v'` those visited
        after. */
    method RequestColumn(center: Vec3, x: int, z: int, ghost o: map<ListIndex, TerrainChunk>,
                         ghost j: map<ListIndex, GenerationJob>, ghost v: set<(int, int)>)
      returns (ghost v': set<(int, int)>)
      requires center.z - chunkPreloadRadius <= z <= center.z + chunkPreloadRadius
      requires Valid() && Grown(chunkObjects, generationJobs, o, j, chunkData, v, chunksOnYAxis)
      requires forall c :: c in v <==> Visited(c, center, chunkPreloadRadius, x, z) && Wanted(c, center, chunkPreloadRadius, o)
      modifies this
      ensures Valid() && chunkData == old(chunkData) && Extends(old(chunkObjects), chunkObjects)
      ensures forall k :: k in chunkObjects && k !in old(chunkObjects) ==> fresh(chunkObjects[k]) && chunkObjects[k].Blank()
      ensures Grown(chunkObjects, generationJobs, o, j, chunkData, v', chunksOnYAxis)
      ensures forall c :: c in v' <==> Visited(c, center, chunkPreloadRadius, x, z + 1) && Wanted(c, center, chunkPreloadRadius, o)
    {
      assert (x, z) !in v;
      VisitedStep(v, center, chunkPreloadRadius, o, x, z);
      assert ListIndex(x, 0, z) in chunkObjects <==> ListIndex(x, 0, z) in o by {
        assert !Added(ListIndex(x, 0, z), j, chunkData, v, chunksOnYAxis);
      }
      if InDisc(x, z, center, chunkPreloadRadius) && ListIndex(x, 0, z) !in chunkObjects {
        ghost var objs1, jobs1 := chunkObjects, generationJobs;
        GenerateChunk(x, z);
        ObjectsCompose(chunkObjects, objs1, o, jobs1, j, chunkData, v, (x, z), chunksOnYAxis);
        JobsCompose(generationJobs, jobs1, j, chunkData, v, (x, z), chunksOnYAxis);
        v' := v + {(x, z)};
      } else {
        v' := v;
      }
    }

    /** The inner loop of `Update`'s request pass: row x, z ascending. */
    method RequestRow(center: Vec3, x: int, ghost o: map<ListIndex, TerrainChunk>,
                      ghost j: map<ListIndex, GenerationJob>, ghost v: set<(int, int)>)
      returns (ghost v': set<(int, int)>)
      requires center.x - chunkPreloadRadius <= x <= center.x + chunkPreloadRadius
      requires Valid() && Grown(chunkObjects, generationJobs, o, j, chunkData, v, chunksOnYAxis)
      requires forall c :: c in v <==> Visited(c, center, chunkPreloadRadius, x, center.z - chunkPreloadRadius) && Wanted(c, center, chunkPreloadRadius, o)
      modifies this
      ensures Valid() && chunkData == old(chunkData) && Extends(old(chunkObjects), chunkObjects)
      ensures forall k :: k in chunkObjects && k !in old(chunkObjects) ==> fresh(chunkObjects[k]) && chunkObjects[k].Blank()
      ensures Grown(chunkObjects, generationJobs, o, j, chunkData, v', chunksOnYAxis)
      ensures forall c :: c in v' <==> Visited(c, center, chunkPreloadRadius, x + 1, center.z - chunkPreloadRadius) && Wanted(c, center, chunkPreloadRadius, o)
    {
      v' := v;
      var z := center.z - chunkPreloadRadius;
      while z <= center.z + chunkPreloadRadius
        invariant center.z - chunkPreloadRadius <= z <= center.z + chunkPreloadRadius + 1
        invariant Valid() && chunkData == old(chunkData) && Extends(old(chunkObjects), chunkObjects)
        invariant forall k :: k in chunkObjects && k !in old(chunkObjects) ==> fresh(chunkObjects[k]) && chunkObjects[k].Blank()
        invariant Grown(chunkObjects, generationJobs, o, j, chunkData, v', chunksOnYAxis)
        invariant forall c :: c in v' <==> Visited(c, center, chunkPreloadRadius, x, z) && Wanted(c, center, chunkPreloadRadius, o)
        decreases center.z + chunkPreloadRadius - z
      {
        v' := RequestColumn(center, x, z, o, j, v');
        z := z + 1;
      }
    }

    /** The request pass of `Update`: exactly the `Requested` chunks get an
        object (unless they have one) and a new job. */
    method RequestChunks(center: Vec3)
      requires Valid()
      modifies this
      ensures Valid() && chunkData == old(chunkData)
      ensures forall k :: k in chunkObjects <==> k in old(chunkObjects) || Requested(k, center, old(chunkObjects), old(generationJobs), old(chunkData))
      ensures Extends(old(chunkObjects), chunkObjects)
      ensures forall k :: k in chunkObjects && k !in old(chunkObjects) ==> fresh(chunkObjects[k]) && chunkObjects[k].Blank()
      ensures forall k :: k in generationJobs <==> k in old(generationJobs) || Requested(k, center, old(chunkObjects), old(generationJobs), old(chunkData))
      ensures Extends(old(generationJobs), generationJobs)
      ensures forall k :: k in generationJobs && k !in old(generationJobs) ==> NewJob(generationJobs[k], k)
    {
      ghost var o, j, v := chunkObjects, generationJobs, {};
      var x := center.x - chunkPreloadRadius;
      while x <= center.x + chunkPreloadRadius
        invariant center.x - chunkPreloadRadius <= x
        invariant x <= center.x + chunkPreloadRadius + 1 || x == center.x - chunkPreloadRadius
        invariant Valid() && chunkData == old(chunkData) && Extends(o, chunkObjects)
        invariant forall k :: k in chunkObjects && k !in o ==> fresh(chunkObjects[k]) && chunkObjects[k].Blank()
        invariant Grown(chunkObjects, generationJobs, o, j, chunkData, v, chunksOnYAxis)
        invariant forall c :: c in v <==> Visited(c, center, chunkPreloadRadius, x, center.z - chunkPreloadRadius) && Wanted(c, center, chunkPreloadRadius, o)
        decreases center.x + chunkPreloadRadius - x
      {
        v := RequestRow(center, x, o, j, v);
        x := x + 1;
      }
      forall c | Wanted(c, center, chunkPreloadRadius, o)
        ensures c in v
      {
        DiscInBox(c.0, c.1, center, chunkPreloadRadius);
      }
      assert forall k :: Added(k, j, chunkData, v, chunksOnYAxis) <==> Requested(k, center, o, j, chunkData);
    }

    /** One generation pass of the worker: every job not yet done gets its
        grid (the stored one when the terrain file holds the chunk), the
        grid is added to the grid map unless the key already has one, and
        the job is marked done. `stored` stands for the terrain file's chunks
        as the file reader returns them, each of the configured size. */
    method GenerationPass(stored: map<ListIndex, TerrainData>)
      requires Valid() && DataSized(stored)
      modifies this
      ensures Valid() && chunkObjects == old(chunkObjects)
      ensures Passed(generationJobs, chunkData, old(generationJobs), old(chunkData), stored, {})
      ensures forall k :: k in generationJobs ==> generationJobs[k].done
      ensures Extends(old(chunkData), chunkData)
    {
      var keys := generationJobs.Keys;
      while keys != {}
        invariant keys <= generationJobs.Keys
        invariant Valid() && chunkObjects == old(chunkObjects)
        invariant Passed(generationJobs, chunkData, old(generationJobs), old(chunkData), stored, keys)
        decreases keys
      {
        var k :| k in keys;
        PassStep(generationJobs, chunkData, old(generationJobs), old(chunkData), stored, keys, k);
        keys := keys - {k};
        FinishJob(k, stored);
      }
    }

    /** The worker's body for job `k`: a job not yet done takes its
        delivered grid, which joins the grid map unless the key has one,
        and is marked done. */
    method FinishJob(k: ListIndex, stored: map<ListIndex, TerrainData>)
      requires Valid() && DataSized(stored) && k in generationJobs
      modifies this
      ensures Valid() && chunkObjects == old(chunkObjects)
      ensures generationJobs == old(generationJobs)[k := Finished(k, old(generationJobs)[k], stored)]
      ensures chunkData == if old(generationJobs)[k].done then old(chunkData)
                           else AddFirst(old(chunkData), k, Delivered(k, old(generationJobs)[k], stored))
    {
      var job := generationJobs[k];
      if !job.done {
        var grid := if k in stored then stored[k] else job.terrainChunkData;
        chunkData := AddFirst(chunkData, k, grid);
        generationJobs := generationJobs[k := job.(terrainChunkData := grid, done := true)];
      }
    }

    /** The chunk objects a finished job hands its grid to. */
    ghost function Attachable(): set<TerrainChunk>
      reads this
    {
      set k | k in generationJobs && generationJobs[k].done && k in chunkObjects :: chunkObjects[k]
    }

    /** `UpdateGenerationData`: every done job whose chunk object still
        exists hands its grid to that object and is removed; done jobs whose
        object is gone stay in the job table. */
    method UpdateGenerationData()
      requires Valid()
      modifies this, Attachable()
      ensures Valid() && chunkObjects == old(chunkObjects) && chunkData == old(chunkData)
      ensures generationJobs == map k | k in old(generationJobs) && !(old(generationJobs)[k].done && k in chunkObjects) :: old(generationJobs)[k]
      ensures forall k :: k in chunkObjects ==>
                if k in old(generationJobs) && old(generationJobs)[k].done
                then chunkObjects[k].chunkData == old(generationJobs)[k].terrainChunkData && chunkObjects[k].ownDirty
                else chunkObjects[k].chunkData == old(chunkObjects[k].chunkData) && chunkObjects[k].ownDirty == old(chunkObjects[k].ownDirty)
    {
      var keys := generationJobs.Keys;
      var jobsToDelete: set<ListIndex> := {};
      while keys != {}
        invariant keys <= generationJobs.Keys
        invariant generationJobs == old(generationJobs) && chunkObjects == old(chunkObjects) && chunkData == old(chunkData)
        invariant jobsToDelete == set k | k in generationJobs && k !in keys && generationJobs[k].done && k in chunkObjects
        invariant forall k :: k in chunkObjects ==>
                    if k in jobsToDelete
                    then chunkObjects[k].chunkData == generationJobs[k].terrainChunkData && chunkObjects[k].ownDirty
                    else chunkObjects[k].chunkData == old(chunkObjects[k].chunkData) && chunkObjects[k].ownDirty == old(chunkObjects[k].ownDirty)
        decreases keys
      {
        var k :| k in keys;
        keys := keys - {k};
        var job := generationJobs[k];
        if job.done && k in chunkObjects {
          var chunk := chunkObjects[k];
          chunk.SetChunkData(job.terrainChunkData);
          jobsToDelete := jobsToDelete + {k};
        }
      }
      generationJobs := map k | k in generationJobs && k !in jobsToDelete :: generationJobs[k];
    }

    /** `CollectGarbage`: drops the chunk object and the grid of every
        chunk object whose column lies further than R from `center`, on
        every layer; jobs stay. */
    method CollectGarbage(center: Vec3)
      requires Valid()
      modifies this
      ensures Valid() && generationJobs == old(generationJobs)
      ensures chunkObjects == map k | k in old(chunkObjects) && !Evicted(k, center, chunkPreloadRadius) :: old(chunkObjects)[k]
      ensures chunkData == map k | k in old(chunkData) && !(k in old(chunkObjects) && Evicted(k, center, chunkPreloadRadius)) :: old(chunkData)[k]
    {
      var keys := chunkObjects.Keys;
      var chunksToDelete: set<ListIndex> := {};
      while keys != {}
        invariant keys <= chunkObjects.Keys
        invariant chunkObjects == old(chunkObjects) && chunkData == old(chunkData) && generationJobs == old(generationJobs)
        invariant chunksToDelete == set k | k in chunkObjects && k !in keys && Evicted(k, center, chunkPreloadRadius)
        decreases keys
      {
        var k :| k in keys;
        keys := keys - {k};
        if Evicted(k, center, chunkPreloadRadius) {
          chunksToDelete := chunksToDelete + {k};
        }
      }
      chunkObjects := map k | k in chunkObjects && k !in chunksToDelete :: chunkObjects[k];
      chunkData := map k | k in chunkData && k !in chunksToDelete :: chunkData[k];
    }

    /** The chunk of the player's column: `Update` zeroes the height first. */
    function PlayerChunk(player: Vec3): (c: Vec3)
      requires chunkWidth > 0 && chunkHeight > 0 && chunkDepth > 0
      ensures c.y == 0
      ensures c.x * chunkWidth <= player.x < (c.x + 1) * chunkWidth
      ensures c.z * chunkDepth <= player.z < (c.z + 1) * chunkDepth
    {
      GetChunkPosition(Vec3(player.x, 0, player.z), Origin, chunkWidth, chunkHeight, chunkDepth)
    }

    /** `Update`: requests the disc around the player's chunk, attaches
        finished grids and drops far chunks. Afterwards every requested chunk
        has an object and a pending job, no object lies beyond R, no
        finished job with an object is left, and no grid was added. In full:
        the objects are the old and the requested ones minus those beyond R,
        the old ones keeping their identity and the new ones blank; the jobs
        are the old ones, minus the finished ones whose object existed, and
        the new requested ones; the grid map loses exactly the grids of
        evicted objects; every old object with a finished job holds that
        job's grid and is dirty, and every other old object is untouched. */
    method Update(player: Vec3)
      requires Valid()
      modifies this, Attachable()
      ensures Valid()
      ensures forall k :: Requested(k, PlayerChunk(player), old(chunkObjects), old(generationJobs), old(chunkData)) ==>
                k in chunkObjects && k in generationJobs && NewJob(generationJobs[k], k)
      ensures forall k :: k in chunkObjects ==>
                k in old(chunkObjects) || Requested(k, PlayerChunk(player), old(chunkObjects), old(generationJobs), old(chunkData))
      ensures forall k :: k in generationJobs ==>
                k in old(generationJobs) || Requested(k, PlayerChunk(player), old(chunkObjects), old(generationJobs), old(chunkData))
      ensures forall k :: k in chunkObjects ==> !Evicted(k, PlayerChunk(player), chunkPreloadRadius)
      ensures forall k :: k in generationJobs && generationJobs[k].done ==> k !in chunkObjects
      ensures chunkData.Keys <= old(chunkData).Keys
      ensures forall k :: k in chunkObjects <==>
                && (k in old(chunkObjects) || Requested(k, PlayerChunk(player), old(chunkObjects), old(generationJobs), old(chunkData)))
                && !Evicted(k, PlayerChunk(player), chunkPreloadRadius)
      ensures forall k :: k in chunkObjects && k in old(chunkObjects) ==> chunkObjects[k] == old(chunkObjects)[k]
      ensures forall k :: k in chunkObjects && k !in old(chunkObjects) ==> fresh(chunkObjects[k]) && chunkObjects[k].Blank()
      ensures forall k :: k in generationJobs <==>
                || (k in old(generationJobs) && !(old(generationJobs)[k].done && k in old(chunkObjects)))
                || Requested(k, PlayerChunk(player), old(chunkObjects), old(generationJobs), old(chunkData))
      ensures forall k :: k in generationJobs && k in old(generationJobs) ==> generationJobs[k] == old(generationJobs)[k]
      ensures chunkData == map k | k in old(chunkData) && !(k in old(chunkObjects) && Evicted(k, PlayerChunk(player), chunkPreloadRadius)) :: old(chunkData)[k]
      ensures forall k :: k in old(chunkObjects) ==>
                if k in old(generationJobs) && old(generationJobs)[k].done
                then old(chunkObjects)[k].chunkData == old(generationJobs)[k].terrainChunkData && old(chunkObjects)[k].ownDirty
                else old(chunkObjects)[k].chunkData == old(chunkObjects[k].chunkData) && old(chunkObjects)[k].ownDirty == old(chunkObjects[k].ownDirty)
    {
      var center := PlayerChunk(player);
      ghost var o, j, d := chunkObjects, generationJobs, chunkData;
      RequestChunks(center);
      ghost var o1, j1 := chunkObjects, generationJobs;
      assert Attachable() <= old(Attachable()) by {
        forall k | k in generationJobs && generationJobs[k].done && k in chunkObjects
          ensures k in j && k in o && chunkObjects[k] == o[k]
        {
        }
      }
      label Requested:
      UpdateGenerationData();
      assert forall k :: k in o ==> old@Requested(o[k].chunkData) == old(o[k].chunkData) && old@Requested(o[k].ownDirty) == old(o[k].ownDirty);
      ghost var j2 := generationJobs;
      CollectGarbage(center);
      TickMaps(center, o, j, d, o1, j1, j2, chunkObjects, chunkData);
      forall k | Requested(k, center, o, j, d)
        ensures k in chunkObjects
      {
        DiscNeverEvicted(k, center, chunkPreloadRadius);
      }
    }

    /** The maps after one tick, from those before it: the request pass
        grows objects `o` and jobs `j` into `o1` and `j1` by the requested
        chunks, the hand-over drops from `j1` the finished jobs that have an
        object, and the collection drops the evicted objects and their
        grids. */
    lemma TickMaps(center: Vec3, o: map<ListIndex, TerrainChunk>, j: map<ListIndex, GenerationJob>, d: map<ListIndex, TerrainData>,
                   o1: map<ListIndex, TerrainChunk>, j1: map<ListIndex, GenerationJob>, j2: map<ListIndex, GenerationJob>,
                   o3: map<ListIndex, TerrainChunk>, d3: map<ListIndex, TerrainData>)
      requires (forall k :: k in o1 <==> k in o || Requested(k, center, o, j, d)) && Extends(o, o1)
      requires (forall k :: k in j1 <==> k in j || Requested(k, center, o, j, d)) && Extends(j, j1)
      requires forall k :: k in j1 && k !in j ==> NewJob(j1[k], k)
      requires j2 == map k | k in j1 && !(j1[k].done && k in o1) :: j1[k]
      requires o3 == map k | k in o1 && !Evicted(k, center, chunkPreloadRadius) :: o1[k]
      requires d3 == map k | k in d && !(k in o1 && Evicted(k, center, chunkPreloadRadius)) :: d[k]
      ensures forall k :: k in o3 <==> (k in o || Requested(k, center, o, j, d)) && !Evicted(k, center, chunkPreloadRadius)
      ensures forall k :: k in o3 && k in o ==> o3[k] == o[k]
      ensures forall k :: k in j2 <==> (k in j && !(j[k].done && k in o)) || Requested(k, center, o, j, d)
      ensures forall k :: k in j2 && k in j ==> j2[k] == j[k]
      ensures d3 == map k | k in d && !(k in o && Evicted(k, center, chunkPreloadRadius)) :: d[k]
    {
      forall k | Requested(k, center, o, j, d)
        ensures k !in j && k !in d && !Evicted(k, center, chunkPreloadRadius)
      {
        DiscNeverEvicted(k, center, chunkPreloadRadius);
      }
    }

    /** A column whose bottom layer still has a job or a grid is never
        requested again: `GenerateChunk` stops at layer 0. As written,
        `CollectGarbage` leaves both behind when it drops a column whose job
        is still pending: the job stays (`generationJobs` is unchanged), the
        hand-over never removes a job without an object, and the grid the
        worker then delivers has no object through which it could be
        dropped. */
    lemma StaleBottomBlocksColumn(x: int, z: int, center: Vec3, o: map<ListIndex, TerrainChunk>,
                                  j: map<ListIndex, GenerationJob>, d: map<ListIndex, TerrainData>)
      requires ListIndex(x, 0, z) in j || ListIndex(x, 0, z) in d
      ensures forall y :: !Requested(ListIndex(x, y, z), center, o, j, d)
    {
      forall y | 0 <= y
        ensures !Open(j, d, x, z, y)
      {
        assert 0 <= 0 <= y;
      }
    }

    /** The collection `CollectGarbage` evidently intends: with the chunk
        objects of the columns beyond R it also drops their jobs and their
        grids, whether or not an object is left for them, so no leftover
        can block a column (see `StaleBottomBlocksColumn`). */
    method CollectGarbageClearing(center: Vec3)
      requires Valid()
      modifies this
      ensures Valid()
      ensures chunkObjects == map k | k in old(chunkObjects) && !Evicted(k, center, chunkPreloadRadius) :: old(chunkObjects)[k]
      ensures chunkData == map k | k in old(chunkData) && !Evicted(k, center, chunkPreloadRadius) :: old(chunkData)[k]
      ensures generationJobs == map k | k in old(generationJobs) && !Evicted(k, center, chunkPreloadRadius) :: old(generationJobs)[k]
    {
      chunkObjects := map k | k in chunkObjects && !Evicted(k, center, chunkPreloadRadius) :: chunkObjects[k];
      chunkData := map k | k in chunkData && !Evicted(k, center, chunkPreloadRadius) :: chunkData[k];
      generationJobs := map k | k in generationJobs && !Evicted(k, center, chunkPreloadRadius) :: generationJobs[k];
    }

    /** With the intended collection, a column dropped around `c0` comes
        back whole: once it lies within R of the player again and has no
        object on layer 0, `Update` requests every one of its layers. */
    lemma ClearedColumnRequested(c0: Vec3, center: Vec3, o: map<ListIndex, TerrainChunk>,
                                 j: map<ListIndex, GenerationJob>, d: map<ListIndex, TerrainData>, x: int, y: int, z: int)
      requires forall k :: k in j ==> !Evicted(k, c0, chunkPreloadRadius)
      requires forall k :: k in d ==> !Evicted(k, c0, chunkPreloadRadius)
      requires Evicted(ListIndex(x, 0, z), c0, chunkPreloadRadius)
      requires InDisc(x, z, center, chunkPreloadRadius) && ListIndex(x, 0, z) !in o && 0 <= y < chunksOnYAxis
      ensures Requested(ListIndex(x, y, z), center, o, j, d)
    {
      forall y' | 0 <= y' <= y
        ensures ListIndex(x, y', z) !in j && ListIndex(x, y', z) !in d
      {
        assert Evicted(ListIndex(x, y', z), c0, chunkPreloadRadius);
      }
    }

    /** The chunk holding world block (x, y, z), and the block's cell in
        that chunk's grid: `GetChunkPosition` and the subtraction of the
        chunk's corner. The sign flips of the source never apply, since the
        floored chunk leaves no negative remainder. */
    function CellOf(x: int, y: int, z: int): (r: (ListIndex, int, int, int))
      requires chunkWidth > 0 && chunkHeight > 0 && chunkDepth > 0
      ensures 0 <= r.1 < chunkWidth && 0 <= r.2 < chunkHeight && 0 <= r.3 < chunkDepth
      ensures x == r.0.x * chunkWidth + r.1 && y == r.0.y * chunkHeight + r.2 && z == r.0.z * chunkDepth + r.3
    {
      var chunk := GetChunkPosition(Vec3(x, y, z), Origin, chunkWidth, chunkHeight, chunkDepth);
      var lx, ly, lz := x - chunk.x * chunkWidth, y - chunk.y * chunkHeight, z - chunk.z * chunkDepth;
      (ListIndex(chunk.x, chunk.y, chunk.z), if lx < 0 then -lx else lx, ly, if lz < 0 then -lz else lz)
    }

    /** Every cell of every chunk has exactly one world position: the
        chunk's corner plus the cell's offset maps back to that cell. */
    lemma CellOfCorner(k: ListIndex, i: int, j: int, l: int)
      requires chunkWidth > 0 && chunkHeight > 0 && chunkDepth > 0
      requires 0 <= i < chunkWidth && 0 <= j < chunkHeight && 0 <= l < chunkDepth
      ensures CellOf(k.x * chunkWidth + i, k.y * chunkHeight + j, k.z * chunkDepth + l) == (k, i, j, l)
    {
      var r := CellOf(k.x * chunkWidth + i, k.y * chunkHeight + j, k.z * chunkDepth + l);
      DivisionUnique(r.0.x, k.x, chunkWidth, r.1, i);
      DivisionUnique(r.0.y, k.y, chunkHeight, r.2, j);
      DivisionUnique(r.0.z, k.z, chunkDepth, r.3, l);
    }

    /** The grids. */
    ghost function Grids(): set<TerrainData>
      reads this
    {
      set k | k in chunkData :: chunkData[k]
    }

    /** The grids' cell arrays. */
    ghost function Cells(): set<array3<Option<Voxel>>>
      reads this
    {
      set k | k in chunkData :: chunkData[k].voxelData
    }

    /** `GetBlock`: null when the chunk holding the block has no grid,
        otherwise the block's cell in that grid. */
    function GetBlock(x: int, y: int, z: int): (c: Option<Voxel>)
      requires Valid()
      reads this, Cells()
      ensures CellOf(x, y, z).0 !in chunkData ==> c == None
      ensures var (k, i, j, l) := CellOf(x, y, z); k in chunkData ==> c == chunkData[k].voxelData[i, j, l]
    {
      var (k, i, j, l) := CellOf(x, y, z);
      if k !in chunkData then None else chunkData[k].GetVoxel(i, j, l)
    }

    /** Block reads address the grids cell by cell: the block at a chunk's
        corner plus (i, j, l) is that chunk's cell (i, j, l), or null when
        the chunk has no grid. */
    lemma BlockAtCell(k: ListIndex, i: int, j: int, l: int)
      requires Valid() && 0 <= i < chunkWidth && 0 <= j < chunkHeight && 0 <= l < chunkDepth
      ensures GetBlock(k.x * chunkWidth + i, k.y * chunkHeight + j, k.z * chunkDepth + l) ==
              if k in chunkData then chunkData[k].voxelData[i, j, l] else None
    {
      CellOfCorner(k, i, j, l);
    }

    /** Cell (i, j, l) of the grid under key `k` is the one `SetBlock(x, y, z, …)`
        writes: the block's chunk has a grid and it shares `k`'s cells. */
    ghost predicate Targets(x: int, y: int, z: int, k: ListIndex, i: int, j: int, l: int)
      requires chunkWidth > 0 && chunkHeight > 0 && chunkDepth > 0
      reads this
    {
      var (t, ti, tj, tl) := CellOf(x, y, z);
      && t in chunkData && k in chunkData && chunkData[k].voxelData == chunkData[t].voxelData
      && (i, j, l) == (ti, tj, tl)
    }

    /** `SetBlock`: a no-op when the chunk holding the block has no grid;
        otherwise writes the block's cell through `SetVoxel`, so reading the
        block back gives the new id, and no other cell changes. */
    method SetBlock(x: int, y: int, z: int, blockId: Short)
      requires Valid()
      modifies Grids(), Cells()
      ensures Valid()
      ensures CellOf(x, y, z).0 in chunkData ==> GetBlock(x, y, z) == Some(Voxel(blockId, 0)) && chunkData[CellOf(x, y, z).0].isDirty
      ensures forall k, i, j, l :: k in chunkData && 0 <= i < chunkWidth && 0 <= j < chunkHeight && 0 <= l < chunkDepth ==>
                chunkData[k].voxelData[i, j, l] ==
                  if Targets(x, y, z, k, i, j, l) then Some(Voxel(blockId, 0)) else old(chunkData[k].voxelData[i, j, l])
    {
      var (chunk, lx, ly, lz) := CellOf(x, y, z);
      if chunk !in chunkData {
        return;
      }
      var cData := chunkData[chunk];
      cData.SetVoxel(lx, ly, lz, blockId);
    }

    /** `HasBlock`: true exactly when `GetBlock` finds a cell holding a
        block (a non-negative id). */
    function HasBlock(x: int, y: int, z: int): (b: bool)
      requires Valid()
      reads this, Cells()
      ensures b <==> IsSolid(GetBlock(x, y, z))
    {
      var (k, i, j, l) := CellOf(x, y, z);
      if k !in chunkData then false else chunkData[k].HasVoxel(i, j, l)
    }
  }
}
