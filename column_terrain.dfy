/** The engine's chunk streamer: one chunk per (x, z) column, requested in
    the square of half-side R around the player's chunk and dropped beyond
    twice R. A generation job carries the grid of a requested chunk until
    the worker has filled it and the main thread attaches it. */
module ColumnTerrain {

  import opened Wrappers
  import opened TerrainGrid
  import opened ChunkFaces
  import opened ChunkTuples
  import opened TerrainChunks
  import opened Distances

  /** A generation job: the grid being filled, whether the worker is done
      with it, and the world position of the chunk's corner. */
  datatype GenerationJob = GenerationJob(terrainChunkData: TerrainData, done: bool, worldspace: Vec3)

  /** What the dictionaries throw: `Add` of a present key, the indexer on an
      absent key. */
  datatype TerrainError = DuplicateKey | KeyNotFound

  /** `GetChunkPosition`: the column holding a world position, found by
      flooring per axis (the `Ceil` branches of the source test a local that
      is always 0, so they never run); y is always 0. */
  function GetChunkPosition(worldspace: Vec3, origin: Vec3, chunkWidth: int, chunkDepth: int): (c: Vec3)
    requires chunkWidth > 0 && chunkDepth > 0
    ensures c.y == 0
    ensures c.x * chunkWidth <= worldspace.x - origin.x < (c.x + 1) * chunkWidth
    ensures c.z * chunkDepth <= worldspace.z - origin.z < (c.z + 1) * chunkDepth
  {
    Vec3((worldspace.x - origin.x) / chunkWidth, 0, (worldspace.z - origin.z) / chunkDepth)
  }

  /** The square `Update` requests: half-side `radius` around `center`. */
  predicate InBox(k: ChunkTuple, center: Vec3, radius: int)
  {
    center.x - radius <= k.x <= center.x + radius && center.z - radius <= k.z <= center.z + radius
  }

  /** The keys `Update`'s loops have visited before (x, z): the whole
      columns left of x and the start of column x. */
  predicate Visited(k: ChunkTuple, center: Vec3, radius: int, x: int, z: int)
  {
    || (center.x - radius <= k.x < x && center.z - radius <= k.z <= center.z + radius)
    || (k.x == x && center.z - radius <= k.z < z)
  }

  /** Visiting (x, z) adds exactly that key to the visited ones. */
  lemma VisitedStep(v: set<ChunkTuple>, center: Vec3, radius: int, x: int, z: int)
    requires center.z - radius <= z <= center.z + radius
    requires forall k :: k in v <==> Visited(k, center, radius, x, z)
    ensures forall k :: k in v + {ChunkTuple(x, z)} <==> Visited(k, center, radius, x, z + 1)
  {
  }

  /** `m2` keeps every entry of `m1`. */
  ghost predicate Extends<K, V>(m1: map<K, V>, m2: map<K, V>)
  {
    forall k :: k in m1 ==> k in m2 && m2[k] == m1[k]
  }

  /** `CollectGarbage`'s test: the chunk lies further than twice the preload
      radius from the player's chunk. */
  predicate Distant(k: ChunkTuple, center: Vec3, radius: int)
  {
    Beyond(Dist2(k.x - center.x, k.z - center.z), 2 * radius)
  }

  /** Nothing `Update` requests is dropped by the `CollectGarbage` of the
      same tick. */
  lemma BoxNeverDistant(k: ChunkTuple, center: Vec3, radius: int)
    requires InBox(k, center, radius)
    ensures !Distant(k, center, radius)
  {
    SquareNotBeyondDouble(k.x - center.x, k.z - center.z, radius);
  }

  /** Each key has its own chunk object. */
  ghost predicate ObjectsDistinct(m: map<ChunkTuple, TerrainChunk>)
  {
    forall k1, k2 :: k1 in m && k2 in m && k1 != k2 ==> m[k1] != m[k2]
  }

  /** Each job has its own grid. */
  ghost predicate GridsDistinct(j: map<ChunkTuple, GenerationJob>)
  {
    forall k1, k2 :: k1 in j && k2 in j && k1 != k2 ==> j[k1].terrainChunkData != j[k2].terrainChunkData
  }

  class CubicTerrain {
    const chunkPreloadRadius: int
    const chunkWidth: int
    const chunkHeight: int
    const chunkDepth: int
    /** The terrain object's own position. */
    const origin: Vec3
    var chunkObjects: map<ChunkTuple, TerrainChunk>
    var generationJobs: map<ChunkTuple, GenerationJob>

    /** The dimensions are usable, every key has its own chunk object, and
        every job holds its own grid of the configured size. */
    ghost predicate Valid()
      reads this
    {
      && chunkWidth > 0 && chunkHeight >= 0 && chunkDepth > 0
      && ObjectsDistinct(chunkObjects) && GridsDistinct(generationJobs) && JobsSized(generationJobs)
    }

    /** A grid of the configured size. */
    predicate Sized(g: TerrainData)
    {
      g.Valid() && g.width == chunkWidth && g.height == chunkHeight && g.depth == chunkDepth
    }

    /** Every job's grid has the configured size. */
    predicate JobsSized(j: map<ChunkTuple, GenerationJob>)
    {
      forall k :: k in j ==> Sized(j[k].terrainChunkData)
    }

    /** Marking a job done keeps every grid where it was. */
    lemma MarkedDoneValid(j: map<ChunkTuple, GenerationJob>, k: ChunkTuple)
      requires k in j && GridsDistinct(j) && JobsSized(j)
      ensures GridsDistinct(j[k := j[k].(done := true)]) && JobsSized(j[k := j[k].(done := true)])
    {
    }

    /** The world position of the corner of column `k`. */
    function ChunkOrigin(k: ChunkTuple): Vec3
    {
      Vec3(origin.x + k.x * chunkWidth, origin.y, origin.z + k.z * chunkDepth)
    }

    /** A job as `GenerateChunk` creates it for column `k`. */
    predicate NewJob(job: GenerationJob, k: ChunkTuple)
    {
      !job.done && Sized(job.terrainChunkData) && job.worldspace == ChunkOrigin(k)
    }

    /** Relative to objects `o` and jobs `j`, the maps `objs` and `jobs`
        give every key of `v` that had no object a new one, every such key
        that had no job a new job, and change nothing else. */
    ghost predicate Grown(objs: map<ChunkTuple, TerrainChunk>, jobs: map<ChunkTuple, GenerationJob>,
                          o: map<ChunkTuple, TerrainChunk>, j: map<ChunkTuple, GenerationJob>, v: set<ChunkTuple>)
    {
      && objs.Keys == o.Keys + v
      && (forall k :: k in o ==> objs[k] == o[k])
      && jobs.Keys == j.Keys + (v - o.Keys)
      && (forall k :: k in j ==> jobs[k] == j[k])
      && (forall k :: k in jobs && k !in j ==> NewJob(jobs[k], k))
    }

    /** A key of `v` that had an object keeps the growth relation. */
    lemma GrownPresent(objs: map<ChunkTuple, TerrainChunk>, jobs: map<ChunkTuple, GenerationJob>,
                       o: map<ChunkTuple, TerrainChunk>, j: map<ChunkTuple, GenerationJob>, v: set<ChunkTuple>, key: ChunkTuple)
      requires Grown(objs, jobs, o, j, v) && key in objs && key !in v
      ensures key in o && Grown(objs, jobs, o, j, v + {key})
    {
      assert (v + {key}) - o.Keys == v - o.Keys;
    }

    /** A new key with a new object and a new job keeps the growth relation. */
    lemma GrownAdded(objs: map<ChunkTuple, TerrainChunk>, jobs: map<ChunkTuple, GenerationJob>,
                     o: map<ChunkTuple, TerrainChunk>, j: map<ChunkTuple, GenerationJob>, v: set<ChunkTuple>,
                     key: ChunkTuple, chunk: TerrainChunk, job: GenerationJob)
      requires Grown(objs, jobs, o, j, v) && key !in objs && key !in jobs && NewJob(job, key)
      ensures Grown(objs[key := chunk], jobs[key := job], o, j, v + {key})
    {
      assert (objs[key := chunk]).Keys == objs.Keys + {key};
      assert (jobs[key := job]).Keys == jobs.Keys + {key};
    }

    /** No key of `v` lacks an object while having a job. */
    ghost predicate NoClash(o: map<ChunkTuple, TerrainChunk>, j: map<ChunkTuple, GenerationJob>, v: set<ChunkTuple>)
    {
      (v - o.Keys) !! j.Keys
    }

    /** A terrain with the given settings and no chunks. */
    constructor (chunkPreloadRadius: int, chunkWidth: int, chunkHeight: int, chunkDepth: int, origin: Vec3)
      requires chunkWidth > 0 && chunkHeight >= 0 && chunkDepth > 0
      ensures Valid() && chunkObjects == map[] && generationJobs == map[]
      ensures this.chunkPreloadRadius == chunkPreloadRadius && this.origin == origin
      ensures this.chunkWidth == chunkWidth && this.chunkHeight == chunkHeight && this.chunkDepth == chunkDepth
    {
      this.chunkPreloadRadius := chunkPreloadRadius;
      this.chunkWidth, this.chunkHeight, this.chunkDepth := chunkWidth, chunkHeight, chunkDepth;
      this.origin := origin;
      chunkObjects := map[];
      generationJobs := map[];
    }

    /** `GenerateChunk`: adds a fresh chunk object for (x, z), then a job
        with a fresh empty grid. Each `Add` throws on a present key; the
        object is already added when the job's `Add` throws. */
    method GenerateChunk(x: int, z: int) returns (r: Result<(), TerrainError>)
      requires Valid()
      modifies this
      ensures Valid()
      ensures r.Err? <==> ChunkTuple(x, z) in old(chunkObjects) || ChunkTuple(x, z) in old(generationJobs)
      ensures r.Err? ==> r.error == DuplicateKey && generationJobs == old(generationJobs)
      ensures ChunkTuple(x, z) in old(chunkObjects) ==> chunkObjects == old(chunkObjects)
      ensures ChunkTuple(x, z) !in old(chunkObjects) ==>
                && ChunkTuple(x, z) in chunkObjects
                && chunkObjects == old(chunkObjects)[ChunkTuple(x, z) := chunkObjects[ChunkTuple(x, z)]]
                && fresh(chunkObjects[ChunkTuple(x, z)])
                && chunkObjects[ChunkTuple(x, z)].chunkData == null && !chunkObjects[ChunkTuple(x, z)].IsDirty()
      ensures r.Ok? ==>
                && ChunkTuple(x, z) in generationJobs
                && generationJobs == old(generationJobs)[ChunkTuple(x, z) := generationJobs[ChunkTuple(x, z)]]
                && NewJob(generationJobs[ChunkTuple(x, z)], ChunkTuple(x, z))
                && fresh(generationJobs[ChunkTuple(x, z)].terrainChunkData)
    {
      var key := ChunkTuple(x, z);
      var chunkPosition := Vec3(origin.x + x * chunkWidth, origin.y, origin.z + z * chunkDepth);
      if key in chunkObjects {
        return Err(DuplicateKey);
      }
      var terrainChunk := new TerrainChunk();
      chunkObjects := chunkObjects[key := terrainChunk];
      if key in generationJobs {
        return Err(DuplicateKey);
      }
      var grid := new TerrainData(chunkWidth, chunkHeight, chunkDepth);
      generationJobs := generationJobs[key := GenerationJob(grid, false, chunkPosition)];
      return Ok(());
    }

    /** One step of `Update`'s request pass: the key gets an object and a
        job unless it has an object already. */
    method RequestKey(key: ChunkTuple, ghost o: map<ChunkTuple, TerrainChunk>, ghost j: map<ChunkTuple, GenerationJob>,
                      ghost v: set<ChunkTuple>)
      returns (r: Result<(), TerrainError>)
      requires Valid() && Grown(chunkObjects, generationJobs, o, j, v) && NoClash(o, j, v) && key !in v
      modifies this
      ensures Valid()
      ensures r.Err? ==> key !in o && key in j
      ensures r.Ok? ==> Grown(chunkObjects, generationJobs, o, j, v + {key}) && NoClash(o, j, v + {key})
      ensures Extends(old(chunkObjects), chunkObjects)
      ensures forall k :: k in chunkObjects && k !in old(chunkObjects) ==> fresh(chunkObjects[k]) && chunkObjects[k].Blank()
    {
      if key in chunkObjects {
        GrownPresent(chunkObjects, generationJobs, o, j, v, key);
        return Ok(());
      }
      ghost var objs, jobs := chunkObjects, generationJobs;
      r := GenerateChunk(key.x, key.z);
      if r.Ok? {
        GrownAdded(objs, jobs, o, j, v, key, chunkObjects[key], generationJobs[key]);
      }
    }

    /** The inner loop of `Update`'s request pass: column x, z ascending.
        `v` holds the keys visited before it, `v'` those visited after. */
    method RequestColumn(center: Vec3, x: int, ghost o: map<ChunkTuple, TerrainChunk>, ghost j: map<ChunkTuple, GenerationJob>,
                         ghost v: set<ChunkTuple>)
      returns (r: Result<(), TerrainError>, ghost v': set<ChunkTuple>)
      requires center.x - chunkPreloadRadius <= x <= center.x + chunkPreloadRadius
      requires Valid() && Grown(chunkObjects, generationJobs, o, j, v) && NoClash(o, j, v)
      requires forall k :: k in v <==> Visited(k, center, chunkPreloadRadius, x, center.z - chunkPreloadRadius)
      modifies this
      ensures Valid()
      ensures r.Err? ==> exists k :: InBox(k, center, chunkPreloadRadius) && k !in o && k in j
      ensures r.Ok? ==> Grown(chunkObjects, generationJobs, o, j, v') && NoClash(o, j, v')
      ensures r.Ok? ==> forall k :: k in v' <==> Visited(k, center, chunkPreloadRadius, x + 1, center.z - chunkPreloadRadius)
      ensures Extends(old(chunkObjects), chunkObjects)
      ensures forall k :: k in chunkObjects && k !in old(chunkObjects) ==> fresh(chunkObjects[k]) && chunkObjects[k].Blank()
    {
      v' := v;
      var z := center.z - chunkPreloadRadius;
      while z <= center.z + chunkPreloadRadius
        invariant center.z - chunkPreloadRadius <= z <= center.z + chunkPreloadRadius + 1
        invariant Valid() && Grown(chunkObjects, generationJobs, o, j, v') && NoClash(o, j, v')
        invariant forall k :: k in v' <==> Visited(k, center, chunkPreloadRadius, x, z)
        invariant Extends(old(chunkObjects), chunkObjects)
        invariant forall k :: k in chunkObjects && k !in old(chunkObjects) ==> fresh(chunkObjects[k]) && chunkObjects[k].Blank()
        decreases center.z + chunkPreloadRadius - z
      {
        var key := ChunkTuple(x, z);
        assert !Visited(key, center, chunkPreloadRadius, x, z);
        r := RequestKey(key, o, j, v');
        if r.Err? {
          assert InBox(key, center, chunkPreloadRadius);
          return;
        }
        VisitedStep(v', center, chunkPreloadRadius, x, z);
        v' := v' + {key};
        z := z + 1;
      }
      r := Ok(());
    }

    /** The request pass of `Update`: every column of the square around
        `center` that has no chunk object gets one and a generation job. It
        throws when such a column still has a job, its object having been
        dropped while the job was pending. */
    method RequestChunks(center: Vec3) returns (r: Result<(), TerrainError>)
      requires Valid()
      modifies this
      ensures Valid()
      ensures r.Ok? <==> !exists k :: InBox(k, center, chunkPreloadRadius) && k !in old(chunkObjects) && k in old(generationJobs)
      ensures r.Ok? ==>
                && (forall k :: k in chunkObjects <==> k in old(chunkObjects) || InBox(k, center, chunkPreloadRadius))
                && (forall k :: k in old(chunkObjects) ==> chunkObjects[k] == old(chunkObjects)[k])
                && (forall k :: k in generationJobs <==>
                      k in old(generationJobs) || (InBox(k, center, chunkPreloadRadius) && k !in old(chunkObjects)))
                && (forall k :: k in old(generationJobs) ==> generationJobs[k] == old(generationJobs)[k])
                && (forall k :: k in generationJobs && k !in old(generationJobs) ==> NewJob(generationJobs[k], k))
      ensures forall k :: k in chunkObjects && k !in old(chunkObjects) ==> fresh(chunkObjects[k]) && chunkObjects[k].Blank()
    {
      ghost var o, j, v := chunkObjects, generationJobs, {};
      var x := center.x - chunkPreloadRadius;
      while x <= center.x + chunkPreloadRadius
        invariant center.x - chunkPreloadRadius <= x
        invariant x <= center.x + chunkPreloadRadius + 1 || x == center.x - chunkPreloadRadius
        invariant Valid() && Grown(chunkObjects, generationJobs, o, j, v) && NoClash(o, j, v)
        invariant forall k :: k in v <==> Visited(k, center, chunkPreloadRadius, x, center.z - chunkPreloadRadius)
        invariant forall k :: k in chunkObjects && k !in o ==> fresh(chunkObjects[k]) && chunkObjects[k].Blank()
        decreases center.x + chunkPreloadRadius - x
      {
        r, v := RequestColumn(center, x, o, j, v);
        if r.Err? {
          return;
        }
        x := x + 1;
      }
      assert forall k :: k in v <==> InBox(k, center, chunkPreloadRadius);
      r := Ok(());
    }

    /** One pass of the generation worker: every job not yet done is marked
        done; what the generator writes into its grid is not modelled. */
    method GenerationPass()
      requires Valid()
      modifies this
      ensures Valid()
      ensures chunkObjects == old(chunkObjects)
      ensures generationJobs.Keys == old(generationJobs).Keys
      ensures forall k :: k in generationJobs ==> generationJobs[k] == old(generationJobs)[k].(done := true)
    {
      var keys := generationJobs.Keys;
      while keys != {}
        invariant keys <= generationJobs.Keys == old(generationJobs).Keys
        invariant Valid() && chunkObjects == old(chunkObjects)
        invariant forall k :: k in generationJobs ==>
                    generationJobs[k] == if k in keys then old(generationJobs)[k] else old(generationJobs)[k].(done := true)
        decreases keys
      {
        var k :| k in keys;
        keys := keys - {k};
        var job := generationJobs[k];
        if !job.done {
          MarkedDoneValid(generationJobs, k);
          generationJobs := generationJobs[k := job.(done := true)];
        }
      }
    }

    /** `UpdateGenerationData`: every done job hands its grid to its chunk
        object and is removed. The indexer throws when a done job's object
        is gone; jobs are removed only after the loop, so then none is. */
    method UpdateGenerationData() returns (r: Result<(), TerrainError>)
      requires Valid()
      modifies this, chunkObjects.Values
      ensures Valid() && chunkObjects == old(chunkObjects)
      ensures r.Err? <==> exists k :: k in old(generationJobs) && old(generationJobs)[k].done && k !in chunkObjects
      ensures r.Err? ==> generationJobs == old(generationJobs)
      ensures r.Ok? ==>
                generationJobs == map k | k in old(generationJobs) && !old(generationJobs)[k].done :: old(generationJobs)[k]
      ensures r.Ok? ==> forall k :: k in chunkObjects ==>
                if k in old(generationJobs) && old(generationJobs)[k].done
                then chunkObjects[k].chunkData == old(generationJobs)[k].terrainChunkData && chunkObjects[k].ownDirty
                else chunkObjects[k].chunkData == old(chunkObjects[k].chunkData) && chunkObjects[k].ownDirty == old(chunkObjects[k].ownDirty)
    {
      var keys := generationJobs.Keys;
      var jobsToDelete: set<ChunkTuple> := {};
      while keys != {}
        invariant keys <= generationJobs.Keys
        invariant generationJobs == old(generationJobs) && chunkObjects == old(chunkObjects)
        invariant jobsToDelete == set k | k in generationJobs && k !in keys && generationJobs[k].done
        invariant forall k :: k in jobsToDelete ==> k in chunkObjects
        invariant forall k :: k in chunkObjects ==>
                    if k in jobsToDelete
                    then chunkObjects[k].chunkData == generationJobs[k].terrainChunkData && chunkObjects[k].ownDirty
                    else chunkObjects[k].chunkData == old(chunkObjects[k].chunkData) && chunkObjects[k].ownDirty == old(chunkObjects[k].ownDirty)
        decreases keys
      {
        var k :| k in keys;
        keys := keys - {k};
        var job := generationJobs[k];
        if job.done {
          if k !in chunkObjects {
            return Err(KeyNotFound);
          }
          var chunk := chunkObjects[k];
          chunk.SetChunkData(job.terrainChunkData);
          jobsToDelete := jobsToDelete + {k};
        }
      }
      generationJobs := map k | k in generationJobs && k !in jobsToDelete :: generationJobs[k];
      return Ok(());
    }

    /** `CollectGarbage`: drops every chunk object further than twice the
        preload radius from `center`; jobs stay. */
    method CollectGarbage(center: Vec3)
      requires Valid()
      modifies this
      ensures Valid() && generationJobs == old(generationJobs)
      ensures chunkObjects == map k | k in old(chunkObjects) && !Distant(k, center, chunkPreloadRadius) :: old(chunkObjects)[k]
    {
      var keys := chunkObjects.Keys;
      var chunksToDelete: set<ChunkTuple> := {};
      while keys != {}
        invariant keys <= chunkObjects.Keys
        invariant chunkObjects == old(chunkObjects) && generationJobs == old(generationJobs)
        invariant chunksToDelete == set k | k in chunkObjects && k !in keys && Distant(k, center, chunkPreloadRadius)
        decreases keys
      {
        var k :| k in keys;
        keys := keys - {k};
        if Distant(k, center, chunkPreloadRadius) {
          chunksToDelete := chunksToDelete + {k};
        }
      }
      chunkObjects := map k | k in chunkObjects && k !in chunksToDelete :: chunkObjects[k];
    }

    /** `Update`: requests the square around the player's chunk, attaches
        finished grids and drops distant chunks. Afterwards every column of
        the square has a chunk object, none is left further than twice the
        radius, and no finished job is left. In full: the objects are the
        old ones and those of the square, minus the distant ones, the old
        ones keeping their identity and the new ones blank; the jobs are the
        pending old ones and a new one for each column of the square that
        had no object; every old object with a finished job holds that
        job's grid and is dirty, and every other old object is untouched. */
    method Update(player: Vec3) returns (r: Result<(), TerrainError>)
      requires Valid()
      modifies this, chunkObjects.Values
      ensures Valid()
      ensures r.Ok? ==>
                var center := GetChunkPosition(player, origin, chunkWidth, chunkDepth);
                && (forall k :: InBox(k, center, chunkPreloadRadius) ==> k in chunkObjects)
                && (forall k :: k in chunkObjects ==> !Distant(k, center, chunkPreloadRadius))
                && (forall k :: k in generationJobs ==> !generationJobs[k].done)
      ensures r.Ok? ==>
                var center := GetChunkPosition(player, origin, chunkWidth, chunkDepth);
                && (forall k :: k in chunkObjects <==>
                      (k in old(chunkObjects) || InBox(k, center, chunkPreloadRadius)) && !Distant(k, center, chunkPreloadRadius))
                && (forall k :: k in chunkObjects && k in old(chunkObjects) ==> chunkObjects[k] == old(chunkObjects)[k])
                && (forall k :: k in chunkObjects && k !in old(chunkObjects) ==> fresh(chunkObjects[k]) && chunkObjects[k].Blank())
      ensures r.Ok? ==>
                var center := GetChunkPosition(player, origin, chunkWidth, chunkDepth);
                && (forall k :: k in generationJobs <==>
                      (k in old(generationJobs) && !old(generationJobs)[k].done) || (InBox(k, center, chunkPreloadRadius) && k !in old(chunkObjects)))
                && (forall k :: k in generationJobs && k in old(generationJobs) ==> generationJobs[k] == old(generationJobs)[k])
                && (forall k :: k in generationJobs && k !in old(generationJobs) ==> NewJob(generationJobs[k], k))
      ensures r.Ok? ==> forall k :: k in old(chunkObjects) ==>
                if k in old(generationJobs) && old(generationJobs)[k].done
                then old(chunkObjects)[k].chunkData == old(generationJobs)[k].terrainChunkData && old(chunkObjects)[k].ownDirty
                else old(chunkObjects)[k].chunkData == old(chunkObjects[k].chunkData) && old(chunkObjects)[k].ownDirty == old(chunkObjects[k].ownDirty)
    {
      var center := GetChunkPosition(player, origin, chunkWidth, chunkDepth);
      ghost var o, j := chunkObjects, generationJobs;
      r := RequestChunks(center);
      if r.Err? {
        return;
      }
      ghost var o1, j1 := chunkObjects, generationJobs;
      label Requested:
      r := UpdateGenerationData();
      if r.Err? {
        return;
      }
      assert forall k :: k in o ==> old@Requested(o[k].chunkData) == old(o[k].chunkData) && old@Requested(o[k].ownDirty) == old(o[k].ownDirty);
      ghost var j2 := generationJobs;
      CollectGarbage(center);
      TickMaps(center, o, j, o1, j1, j2, chunkObjects);
    }

    /** The maps after one tick, from those before it: the request pass
        grows objects `o` and jobs `j` into `o1` and `j1` by the square, the
        hand-over drops the finished jobs from `j1`, and the collection
        drops the distant objects. */
    lemma TickMaps(center: Vec3, o: map<ChunkTuple, TerrainChunk>, j: map<ChunkTuple, GenerationJob>,
                   o1: map<ChunkTuple, TerrainChunk>, j1: map<ChunkTuple, GenerationJob>,
                   j2: map<ChunkTuple, GenerationJob>, o3: map<ChunkTuple, TerrainChunk>)
      requires !exists k :: InBox(k, center, chunkPreloadRadius) && k !in o && k in j
      requires (forall k :: k in o1 <==> k in o || InBox(k, center, chunkPreloadRadius)) && Extends(o, o1)
      requires (forall k :: k in j1 <==> k in j || (InBox(k, center, chunkPreloadRadius) && k !in o)) && Extends(j, j1)
      requires forall k :: k in j1 && k !in j ==> NewJob(j1[k], k)
      requires j2 == map k | k in j1 && !j1[k].done :: j1[k]
      requires o3 == map k | k in o1 && !Distant(k, center, chunkPreloadRadius) :: o1[k]
      ensures forall k :: k in j1 && j1[k].done ==> k in j && j1[k] == j[k]
      ensures forall k :: k in o3 <==> (k in o || InBox(k, center, chunkPreloadRadius)) && !Distant(k, center, chunkPreloadRadius)
      ensures forall k :: InBox(k, center, chunkPreloadRadius) ==> k in o3
      ensures forall k :: k in o3 && k in o ==> o3[k] == o[k]
      ensures forall k :: k in j2 <==> (k in j && !j[k].done) || (InBox(k, center, chunkPreloadRadius) && k !in o)
      ensures forall k :: k in j2 && k in j ==> j2[k] == j[k]
      ensures forall k :: k in j2 && k !in j ==> NewJob(j2[k], k)
    {
      forall k | InBox(k, center, chunkPreloadRadius)
        ensures !Distant(k, center, chunkPreloadRadius)
      {
        BoxNeverDistant(k, center, chunkPreloadRadius);
      }
    }
  }
}
