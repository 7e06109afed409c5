/** A dictionary keyed by integer triples where the first write of a key wins. */
module List3D {

  import opened Wrappers

  /** The key: three coordinates compared component-wise. */
  datatype ListIndex = ListIndex(x: int, y: int, z: int)

  predicate IsInt32(v: int)
  {
    -0x8000_0000 <= v < 0x8000_0000
  }

  /** The failure raised by `Equals` when the argument is not a ListIndex:
      the `as` cast yields null and reading its field throws. */
  datatype EqualsError = NullReference

  /** `Equals(object)`: component-wise on x, y and z. */
  function Equals(a: ListIndex, other: Option<ListIndex>): (r: Result<bool, EqualsError>)
    ensures other.None? <==> r.Err?
    ensures other.Some? ==> (r.value <==> a == other.value)
  {
    match other
    case None => Err(NullReference)
    case Some(b) => Ok(a.x == b.x && a.y == b.y && a.z == b.z)
  }

  const TwoTo32: int := 0x1_0000_0000

  /** Two's-complement wrap-around of an `unchecked` 32-bit result. */
  function Wrap32(v: int): (r: int)
    ensures IsInt32(r)
    ensures (v - r) % TwoTo32 == 0
  {
    (v + 0x8000_0000) % TwoTo32 - 0x8000_0000
  }

  /** `GetHashCode`: 17, then `hash * 23 + c` for each coordinate, every step
      wrapping at 32 bits (an int's own hash code is its value). */
  function HashCode(i: ListIndex): (h: int)
    ensures IsInt32(h)
  {
    var h0 := 17;
    var h1 := Wrap32(h0 * 23 + i.x);
    var h2 := Wrap32(h1 * 23 + i.y);
    Wrap32(h2 * 23 + i.z)
  }

  /** Wrapping is unaffected by adding a multiple of 2^32. */
  lemma WrapShift(v: int, k: int)
    ensures Wrap32(v + k * TwoTo32) == Wrap32(v)
  {
    var q, r := (v + 0x8000_0000) / TwoTo32, (v + 0x8000_0000) % TwoTo32;
    assert v + k * TwoTo32 + 0x8000_0000 == (q + k) * TwoTo32 + r;
  }

  /** Wrapping in the middle of `h * 23 + c` changes nothing. */
  lemma WrapStep(a: int, c: int)
    ensures Wrap32(Wrap32(a) * 23 + c) == Wrap32(a * 23 + c)
  {
    var k := (a - Wrap32(a)) / TwoTo32;
    assert Wrap32(a) == a - k * TwoTo32;
    assert Wrap32(a) * 23 + c == a * 23 + c + (-23 * k) * TwoTo32;
    WrapShift(a * 23 + c, -23 * k);
  }

  /** The step-by-step wrapping hash equals one wrap of the exact polynomial. */
  lemma HashCodeClosedForm(i: ListIndex)
    ensures HashCode(i) == Wrap32(((17 * 23 + i.x) * 23 + i.y) * 23 + i.z)
  {
    WrapStep(17 * 23 + i.x, i.y);
    WrapStep((17 * 23 + i.x) * 23 + i.y, i.z);
  }

  /** Keys that `Equals` calls equal have equal hash codes: the
      consistency between `Equals` and `GetHashCode` that the dictionary
      behind `List3D` relies on. Both read only x, y and z, so it holds by
      congruence. */
  lemma EqualKeysEqualHashes(a: ListIndex, b: ListIndex)
    requires Equals(a, Some(b)) == Ok(true)
    ensures HashCode(a) == HashCode(b)
  {
  }

  /** `Add` on the dictionary: inserts an absent key, ignores a present one. */
  function AddFirst<T>(m: map<ListIndex, T>, k: ListIndex, v: T): (r: map<ListIndex, T>)
    ensures r.Keys == m.Keys + {k}
    ensures r[k] == if k in m then m[k] else v
    ensures forall j :: j in m ==> r[j] == m[j]
  {
    if k in m then m else m[k := v]
  }

  /** `Remove`: deletes only `k`; removing an absent key changes nothing. */
  function RemoveKey<T>(m: map<ListIndex, T>, k: ListIndex): (r: map<ListIndex, T>)
    ensures r.Keys == m.Keys - {k}
    ensures forall j :: j in r ==> r[j] == m[j]
    ensures k !in m ==> r == m
  {
    m - {k}
  }

  class List3D<T> {
    var listData: map<ListIndex, T>

    constructor ()
      ensures listData == map[]
    {
      listData := map[];
    }

    method Add(x: int, y: int, z: int, data: T)
      modifies this
      ensures listData == AddFirst(old(listData), ListIndex(x, y, z), data)
    {
      var indexObject := ListIndex(x, y, z);
      if indexObject !in listData {
        listData := listData[indexObject := data];
      }
    }

    /** `Get` and the indexer throw on an absent key. */
    function Get(x: int, y: int, z: int): (d: T)
      requires ListIndex(x, y, z) in listData
      reads this
      ensures d == listData[ListIndex(x, y, z)]
    {
      listData[ListIndex(x, y, z)]
    }

    function ContainsKey(x: int, y: int, z: int): (b: bool)
      reads this
      ensures b <==> ListIndex(x, y, z) in listData
    {
      ListIndex(x, y, z) in listData
    }

    method Remove(index: ListIndex)
      modifies this
      ensures listData == RemoveKey(old(listData), index)
    {
      listData := listData - {index};
    }
  }
}
