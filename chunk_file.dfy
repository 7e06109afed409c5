/** The chunk store on disk: a lookup file of 16-byte records
    (x: int, z: int, offset: long) and a data file holding the serialized
    chunk blobs at those offsets. Both files are byte sequences here and a
    blob is opaque. */
module ChunkFile {

  import opened Wrappers
  import opened BitConverter
  import opened ChunkTuples

  /** The size of one lookup record. */
  const RecordSize: int := 16

  /** What the file operations throw: a lookup file that ends inside a
      record, a key recorded twice, a key that was never stored, an offset
      the stream refuses, a blob that runs past the end of the data file. */
  datatype StoreError = Truncated | DuplicateKey | KeyNotFound | NegativeOffset | EndOfData

  /** One decoded lookup record. */
  datatype Record = Record(key: ChunkTuple, position: Int64)

  /** The bytes `WriteLookupTable` appends: x, then z, then the offset. */
  function EncodeRecord(x: Int32, z: Int32, position: Int64): (bs: seq<Byte>)
    ensures |bs| == RecordSize
  {
    GetBytes32(x) + GetBytes32(z) + GetBytes64(position)
  }

  /** The record `LoadLookupTable` reads from 16 bytes. */
  function DecodeRecord(bs: seq<Byte>): (r: Record)
    requires |bs| == RecordSize
    ensures -0x8000_0000 <= r.key.x < 0x8000_0000 && -0x8000_0000 <= r.key.z < 0x8000_0000
  {
    Record(ChunkTuple(ToInt32(bs[0..4]), ToInt32(bs[4..8])), ToInt64(bs[8..16]))
  }

  /** Decoding an encoded record gives back its fields. */
  lemma DecodeEncode(x: Int32, z: Int32, position: Int64)
    ensures DecodeRecord(EncodeRecord(x, z, position)) == Record(ChunkTuple(x, z), position)
  {
    var bs := EncodeRecord(x, z, position);
    assert bs[0..4] == GetBytes32(x) && bs[4..8] == GetBytes32(z) && bs[8..16] == GetBytes64(position);
    Int32RoundTrip(x);
    Int32RoundTrip(z);
    Int64RoundTrip(position);
  }

  /** Every 16 bytes are the encoding of the record they decode to. */
  lemma EncodeDecode(bs: seq<Byte>)
    requires |bs| == RecordSize
    ensures var r := DecodeRecord(bs); EncodeRecord(r.key.x, r.key.z, r.position) == bs
  {
    Int32Bytes(bs[0..4]);
    Int32Bytes(bs[4..8]);
    Int64Bytes(bs[8..16]);
    assert bs == bs[0..4] + bs[4..8] + bs[8..16];
  }

  /** The fields of the record at byte `i` are the bytes at i, i + 4 and i + 8. */
  lemma RecordFields(bs: seq<Byte>, i: nat)
    requires i + RecordSize <= |bs|
    ensures bs[i..i + RecordSize][0..4] == bs[i..i + 4]
    ensures bs[i..i + RecordSize][4..8] == bs[i + 4..i + 8]
    ensures bs[i..i + RecordSize][8..16] == bs[i + 8..i + 16]
  {
    SliceOfSlice(bs, i, RecordSize, 0, 4);
    SliceOfSlice(bs, i, RecordSize, 4, 8);
    SliceOfSlice(bs, i, RecordSize, 8, 16);
  }

  /** Bytes a .. b of the n bytes at i are the bytes i + a .. i + b. */
  lemma SliceOfSlice(bs: seq<Byte>, i: nat, n: nat, a: nat, b: nat)
    requires a <= b <= n && i + n <= |bs|
    ensures bs[i..i + n][a..b] == bs[i + a..i + b]
  {
    var s := bs[i..i + n][a..b];
    assert forall t :: 0 <= t < |s| ==> s[t] == bs[i + a + t];
  }

  /** The loop of `LoadLookupTable` from byte `i` on, adding to `table`: a
      record cut short by the end of the file fails the byte conversion and
      a key already present fails `Dictionary.Add`. */
  function ParseFrom(bs: seq<Byte>, i: nat, table: map<ChunkTuple, Int64>): (r: Result<map<ChunkTuple, Int64>, StoreError>)
    ensures r.Ok? ==> forall k :: k in table ==> k in r.value && r.value[k] == table[k]
    ensures i < |bs| < i + RecordSize ==> r == Err(Truncated)
    decreases |bs| - i
  {
    if i >= |bs| then Ok(table)
    else if i + RecordSize > |bs| then Err(Truncated)
    else
      var r := DecodeRecord(bs[i..i + RecordSize]);
      if r.key in table then Err(DuplicateKey) else ParseFrom(bs, i + RecordSize, table[r.key := r.position])
  }

  /** The table a lookup file describes: an empty file describes an empty
      table, and a file shorter than one record describes none. */
  function ParseTable(bs: seq<Byte>): (r: Result<map<ChunkTuple, Int64>, StoreError>)
    ensures bs == [] ==> r == Ok(map[])
    ensures 0 < |bs| < RecordSize ==> r == Err(Truncated)
  {
    ParseFrom(bs, 0, map[])
  }

  /** A successful parse consumed whole records, each adding a new key. */
  lemma {:induction false} ParseFromCounts(bs: seq<Byte>, i: nat, table: map<ChunkTuple, Int64>)
    requires i <= |bs| && ParseFrom(bs, i, table).Ok?
    ensures (|bs| - i) % RecordSize == 0
    ensures |ParseFrom(bs, i, table).value| == |table| + (|bs| - i) / RecordSize
    ensures table.Keys <= ParseFrom(bs, i, table).value.Keys
    decreases |bs| - i
  {
    if i < |bs| {
      var r := DecodeRecord(bs[i..i + RecordSize]);
      ParseFromCounts(bs, i + RecordSize, table[r.key := r.position]);
    }
  }

  /** A lookup file that parses holds a whole number of records and one key
      per record; one whose length is not a multiple of 16 never parses. */
  lemma ParseTableCounts(bs: seq<Byte>)
    ensures ParseTable(bs).Ok? ==> |bs| % RecordSize == 0 && |ParseTable(bs).value| == |bs| / RecordSize
  {
    if ParseTable(bs).Ok? {
      ParseFromCounts(bs, 0, map[]);
    }
  }

  /** Appending one record with a new key to a file that parses adds exactly
      that key. */
  lemma {:induction false} ParseFromAppend(bs: seq<Byte>, i: nat, table: map<ChunkTuple, Int64>, x: Int32, z: Int32, position: Int64)
    requires i <= |bs| && ParseFrom(bs, i, table).Ok?
    requires ChunkTuple(x, z) !in ParseFrom(bs, i, table).value
    ensures ParseFrom(bs + EncodeRecord(x, z, position), i, table)
            == Ok(ParseFrom(bs, i, table).value[ChunkTuple(x, z) := position])
    decreases |bs| - i
  {
    var rec := EncodeRecord(x, z, position);
    var key := ChunkTuple(x, z);
    if i == |bs| {
      assert (bs + rec)[i..i + RecordSize] == rec;
      DecodeEncode(x, z, position);
      assert ParseFrom(bs + rec, i + RecordSize, table[key := position]) == Ok(table[key := position]);
    } else {
      var r := DecodeRecord(bs[i..i + RecordSize]);
      var next := table[r.key := r.position];
      assert ParseFrom(bs, i, table) == ParseFrom(bs, i + RecordSize, next);
      assert (bs + rec)[i..i + RecordSize] == bs[i..i + RecordSize];
      assert ParseFrom(bs + rec, i, table) == ParseFrom(bs + rec, i + RecordSize, next);
      ParseFromAppend(bs, i + RecordSize, next, x, z, position);
    }
  }

  // ---------------------------------------------------------------------
  // The store as a value.

  /** Both files and the in-memory lookup table. */
  datatype Store = Store(lookupFile: seq<Byte>, dataFile: seq<Byte>, table: map<ChunkTuple, Int64>)

  /** The lookup file describes exactly the in-memory table, and every
      offset is one the stream accepts. */
  ghost predicate Consistent(s: Store)
  {
    && ParseTable(s.lookupFile) == Ok(s.table)
    && forall k :: k in s.table ==> 0 <= s.table[k]
  }

  /** `count` zero bytes: what a stream writes into a gap it jumps over. */
  function Zeros(count: nat): (bs: seq<Byte>)
    ensures |bs| == count && forall i :: 0 <= i < count ==> bs[i] == 0
  {
    seq(count, i => 0)
  }

  /** The data file after writing `blob` at `position`: the blob overwrites
      what was there and may extend the file, and a gap past the old end is
      zero-filled. */
  function WriteAt(data: seq<Byte>, position: nat, blob: seq<Byte>): (r: seq<Byte>)
    ensures |r| == if position + |blob| <= |data| then |data| else position + |blob|
    ensures r[position..position + |blob|] == blob
    ensures forall i :: 0 <= i < |r| && !(position <= i < position + |blob|) ==>
              r[i] == if i < |data| then data[i] else 0
  {
    if position + |blob| <= |data| then data[..position] + blob + data[position + |blob|..]
    else if position <= |data| then data[..position] + blob
    else data + Zeros(position - |data|) + blob
  }

  /** `SetChunkData`: a stored key is overwritten at its offset; a new key
      gets the current end of the data file as its offset, is registered in
      memory and gets one record appended to the lookup file. */
  function SetChunk(s: Store, x: Int32, z: Int32, blob: seq<Byte>): (r: Result<Store, StoreError>)
    requires |s.dataFile| < 0x8000_0000_0000_0000
    ensures r.Err? <==> ChunkTuple(x, z) in s.table && s.table[ChunkTuple(x, z)] < 0
    ensures r.Err? ==> r.error == NegativeOffset
    ensures r.Ok? ==> ChunkTuple(x, z) in r.value.table
    ensures r.Ok? ==> forall k :: k in s.table ==> k in r.value.table && r.value.table[k] == s.table[k]
    ensures r.Ok? ==> forall k :: k in r.value.table ==> k in s.table || k == ChunkTuple(x, z)
    ensures r.Ok? ==> var p := r.value.table[ChunkTuple(x, z)];
                      0 <= p && p + |blob| <= |r.value.dataFile| && r.value.dataFile[p..p + |blob|] == blob
  {
    var key := ChunkTuple(x, z);
    if key in s.table then
      var position := s.table[key];
      if position < 0 then Err(NegativeOffset)
      else Ok(Store(s.lookupFile, WriteAt(s.dataFile, position, blob), s.table))
    else
      var position := |s.dataFile|;
      Ok(Store(s.lookupFile + EncodeRecord(x, z, position), WriteAt(s.dataFile, position, blob), s.table[key := position]))
  }

  /** `HasChunk`: membership in the in-memory table, which is exactly when
      `GetChunkData` finds the key. */
  function HasChunk(s: Store, x: Int32, z: Int32): (b: bool)
    ensures b <==> ReadChunk(s, x, z, 0) != Err(KeyNotFound)
  {
    ChunkTuple(x, z) in s.table
  }

  /** `GetChunkData`, reading a blob of `size` bytes at the key's offset. */
  function ReadChunk(s: Store, x: Int32, z: Int32, size: nat): (r: Result<seq<Byte>, StoreError>)
    ensures r == Err(KeyNotFound) <==> ChunkTuple(x, z) !in s.table
    ensures r.Ok? ==> |r.value| == size
    ensures r.Ok? <==> && ChunkTuple(x, z) in s.table && 0 <= s.table[ChunkTuple(x, z)]
                       && s.table[ChunkTuple(x, z)] + size <= |s.dataFile|
    ensures r.Ok? ==> forall i :: 0 <= i < size ==> r.value[i] == s.dataFile[s.table[ChunkTuple(x, z)] + i]
  {
    var key := ChunkTuple(x, z);
    if key !in s.table then Err(KeyNotFound)
    else
      var position := s.table[key];
      if position < 0 then Err(NegativeOffset)
      else if position + size > |s.dataFile| then Err(EndOfData)
      else Ok(s.dataFile[position..position + size])
  }

  /** A store opened from an empty lookup file is consistent and empty. */
  lemma EmptyConsistent(data: seq<Byte>)
    ensures Consistent(Store([], data, map[]))
  {
  }

  /** On a consistent store `SetChunk` always succeeds and the store stays
      consistent: the appended record parses to the new key. */
  lemma SetChunkConsistent(s: Store, x: Int32, z: Int32, blob: seq<Byte>)
    requires Consistent(s) && |s.dataFile| < 0x8000_0000_0000_0000
    ensures SetChunk(s, x, z, blob).Ok?
    ensures Consistent(SetChunk(s, x, z, blob).value)
  {
    if ChunkTuple(x, z) !in s.table {
      ParseFromAppend(s.lookupFile, 0, map[], x, z, |s.dataFile|);
    }
  }

  /** After `SetChunk` the key is present, it reads back the blob just
      written, and the lookup file grew by one record exactly when the key
      was new. */
  lemma ReadAfterSet(s: Store, x: Int32, z: Int32, blob: seq<Byte>)
    requires |s.dataFile| < 0x8000_0000_0000_0000 && SetChunk(s, x, z, blob).Ok?
    ensures var t := SetChunk(s, x, z, blob).value;
            && HasChunk(t, x, z)
            && ReadChunk(t, x, z, |blob|) == Ok(blob)
            && |t.lookupFile| == |s.lookupFile| + (if HasChunk(s, x, z) then 0 else RecordSize)
  {
  }

  /** Offsets never move: every stored key keeps its offset, a new key gets
      the old end of the data file, and no other key appears. */
  lemma OffsetsStable(s: Store, x: Int32, z: Int32, blob: seq<Byte>)
    requires |s.dataFile| < 0x8000_0000_0000_0000 && SetChunk(s, x, z, blob).Ok?
    ensures var t := SetChunk(s, x, z, blob).value;
            && t.table.Keys == s.table.Keys + {ChunkTuple(x, z)}
            && (forall k :: k in s.table ==> t.table[k] == s.table[k])
            && (ChunkTuple(x, z) !in s.table ==> t.table[ChunkTuple(x, z)] == |s.dataFile|)
  {
  }

  /** Every stored blob of `size` bytes lies inside the data file and no two
      of them overlap. */
  ghost predicate Disjoint(s: Store, size: nat)
  {
    && (forall k :: k in s.table ==> 0 <= s.table[k] && s.table[k] + size <= |s.dataFile|)
    && (forall k1, k2 :: k1 in s.table && k2 in s.table && k1 != k2 ==>
          s.table[k1] + size <= s.table[k2] || s.table[k2] + size <= s.table[k1])
  }

  /** With blobs of one size, storing keeps the blobs disjoint. */
  lemma SetChunkDisjoint(s: Store, x: Int32, z: Int32, blob: seq<Byte>)
    requires |s.dataFile| < 0x8000_0000_0000_0000 && Disjoint(s, |blob|)
    ensures SetChunk(s, x, z, blob).Ok?
    ensures Disjoint(SetChunk(s, x, z, blob).value, |blob|)
  {
  }

  /** Overwriting a stored key with a blob of the common size does not grow
      the data file. */
  lemma OverwriteKeepsLength(s: Store, x: Int32, z: Int32, blob: seq<Byte>)
    requires |s.dataFile| < 0x8000_0000_0000_0000 && Disjoint(s, |blob|) && HasChunk(s, x, z)
    ensures SetChunk(s, x, z, blob).Ok?
    ensures |SetChunk(s, x, z, blob).value.dataFile| == |s.dataFile|
  {
  }

  /** Storing one key leaves the blob of every other key as it was. */
  lemma SetChunkKeepsOthers(s: Store, x: Int32, z: Int32, blob: seq<Byte>, x2: Int32, z2: Int32)
    requires |s.dataFile| < 0x8000_0000_0000_0000 && Disjoint(s, |blob|)
    requires HasChunk(s, x2, z2) && (x2, z2) != (x, z)
    ensures SetChunk(s, x, z, blob).Ok?
    ensures ReadChunk(SetChunk(s, x, z, blob).value, x2, z2, |blob|) == ReadChunk(s, x2, z2, |blob|)
  {
    var t := SetChunk(s, x, z, blob).value;
    var p := t.table[ChunkTuple(x, z)];
    var q := s.table[ChunkTuple(x2, z2)];
    assert t.dataFile[q..q + |blob|] == s.dataFile[q..q + |blob|] by {
      forall i | q <= i < q + |blob|
        ensures t.dataFile[i] == s.dataFile[i]
      {
        assert !(p <= i < p + |blob|);
      }
    }
  }

  // ---------------------------------------------------------------------
  // The store object.

  class ChunkFileStore {
    /** The bytes of the lookup-table file. */
    var lookupFile: seq<Byte>
    /** The bytes of the chunk data file. */
    var dataFile: seq<Byte>
    /** The in-memory lookup table. */
    var chunkLookupTable: map<ChunkTuple, Int64>

    function State(): Store
      reads this
    {
      Store(lookupFile, dataFile, chunkLookupTable)
    }

    /** The constructor up to the load: the two files (empty when they did
        not exist) and an empty table. */
    constructor (lookupFile: seq<Byte>, dataFile: seq<Byte>)
      ensures State() == Store(lookupFile, dataFile, map[])
    {
      this.lookupFile, this.dataFile := lookupFile, dataFile;
      chunkLookupTable := map[];
    }

    /** `LoadLookupTable`: adds every record of the lookup file to the table,
        16 bytes at a time, and stops at the first record that fails. */
    method LoadLookupTable() returns (r: Result<(), StoreError>)
      modifies this
      ensures lookupFile == old(lookupFile) && dataFile == old(dataFile)
      ensures var p := ParseFrom(lookupFile, 0, old(chunkLookupTable));
              && (p.Ok? <==> r.Ok?)
              && (p.Ok? ==> chunkLookupTable == p.value)
              && (p.Err? ==> r.error == p.error)
    {
      var i := 0;
      while i < |lookupFile|
        invariant i <= |lookupFile|
        invariant lookupFile == old(lookupFile) && dataFile == old(dataFile)
        invariant ParseFrom(lookupFile, i, chunkLookupTable) == ParseFrom(lookupFile, 0, old(chunkLookupTable))
        decreases |lookupFile| - i
      {
        if i + RecordSize > |lookupFile| {
          return Err(Truncated);
        }
        var x := ToInt32(lookupFile[i..i + 4]);
        var z := ToInt32(lookupFile[i + 4..i + 8]);
        var position := ToInt64(lookupFile[i + 8..i + 16]);
        RecordFields(lookupFile, i);
        if ChunkTuple(x, z) in chunkLookupTable {
          return Err(DuplicateKey);
        }
        chunkLookupTable := chunkLookupTable[ChunkTuple(x, z) := position];
        i := i + RecordSize;
      }
      return Ok(());
    }

    /** `WriteLookupTable`: appends the record of (x, z, position). */
    method WriteLookupTable(x: Int32, z: Int32, position: Int64)
      modifies this
      ensures lookupFile == old(lookupFile) + EncodeRecord(x, z, position)
      ensures dataFile == old(dataFile) && chunkLookupTable == old(chunkLookupTable)
    {
      var bytes := GetBytes32(x) + GetBytes32(z) + GetBytes64(position);
      lookupFile := lookupFile + bytes;
    }

    /** `SetChunkData`, with the serialized chunk as `blob`. */
    method SetChunkData(x: Int32, z: Int32, blob: seq<Byte>) returns (r: Result<(), StoreError>)
      requires |dataFile| < 0x8000_0000_0000_0000
      modifies this
      ensures var t := SetChunk(old(State()), x, z, blob);
              && (t.Ok? ==> r.Ok? && State() == t.value)
              && (t.Err? ==> r == Err(t.error) && State() == old(State()))
    {
      var tuple := ChunkTuple(x, z);
      var position: int := |dataFile|;
      if tuple in chunkLookupTable {
        position := chunkLookupTable[tuple];
      } else {
        chunkLookupTable := chunkLookupTable[tuple := |dataFile|];
        WriteLookupTable(x, z, |dataFile|);
      }
      if position < 0 {
        return Err(NegativeOffset);
      }
      dataFile := WriteAt(dataFile, position, blob);
      return Ok(());
    }
  }

  /** `new CubicTerrainChunkFile(...)`: the constructor and its table load;
      a lookup file that does not parse makes the construction throw. */
  method Open(lookupFile: seq<Byte>, dataFile: seq<Byte>) returns (r: Result<ChunkFileStore, StoreError>)
    ensures ParseTable(lookupFile).Ok? <==> r.Ok?
    ensures r.Ok? ==> fresh(r.value) && r.value.State() == Store(lookupFile, dataFile, ParseTable(lookupFile).value)
    ensures r.Err? ==> r.error == ParseTable(lookupFile).error
  {
    var store := new ChunkFileStore(lookupFile, dataFile);
    var loaded := store.LoadLookupTable();
    if loaded.Err? {
      return Err(loaded.error);
    }
    return Ok(store);
  }
}
