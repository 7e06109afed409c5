/** The (x, z) key of a chunk column in the engine's dictionaries: its
    equality, its `==` operator and its hash code. */
module ChunkTuples {

  import opened Wrappers
  import opened BitConverter

  datatype ChunkTuple = ChunkTuple(x: int, z: int)

  /** What `Equals` throws when its argument is null. */
  datatype TupleError = NullTuple

  /** `Equals(object)`: x and z are compared, so the dictionaries may key on
      the value itself. Its null guard is written with the class's own `!=`,
      which holds whenever one side is null, so a null argument passes the
      guard and reading its x throws. */
  function Equals(a: ChunkTuple, other: Option<ChunkTuple>): (r: Result<bool, TupleError>)
    ensures r.Err? <==> other.None?
    ensures r.Err? ==> r.error == NullTuple
    ensures other.Some? ==> (r.value <==> other.value == a)
  {
    match other
    case None => Err(NullTuple)
    case Some(b) => Ok(b.x == a.x && b.z == a.z)
  }

  /** `operator ==`: false as soon as either side is null, even when both
      are; otherwise `Equals`, which cannot throw then. */
  function Same(a: Option<ChunkTuple>, b: Option<ChunkTuple>): (r: bool)
    ensures r <==> a.Some? && a == b
  {
    if a.None? || b.None? then false else Equals(a.value, b).value
  }

  /** `operator !=`: the negation of `==`, so two nulls are unequal. */
  function Differ(a: Option<ChunkTuple>, b: Option<ChunkTuple>): (r: bool)
    ensures r <==> a.None? || a != b
  {
    !Same(a, b)
  }

  /** The guard `otherTuple != null` of `Equals` holds for a null argument,
      so `Equals(null)` does not reach its `return false` and throws. */
  lemma NullGuardPasses(a: ChunkTuple)
    ensures Differ(Some(a), None)
    ensures Equals(a, None) == Err(NullTuple)
  {
  }

  /** `Equals` as its guard intends, the null test being a reference test
      (`(object)otherTuple != null`): a null argument is not equal, and any
      other argument is compared as `Equals` compares it. */
  function EqualsGuarded(a: ChunkTuple, other: Option<ChunkTuple>): (r: bool)
    ensures r <==> other == Some(a)
    ensures other.Some? ==> Equals(a, other) == Ok(r)
  {
    other.Some? && other.value.x == a.x && other.value.z == a.z
  }

  /** The `(short)` cast: the low 16 bits read as a signed value. */
  function ToShort(v: int): (s: int)
    ensures -0x8000 <= s < 0x8000
    ensures (v - s) % 0x1_0000 == 0
  {
    (v + 0x8000) % 0x1_0000 - 0x8000
  }

  /** `a | b` on 32-bit ints where `a` has all bits clear (0) or all bits
      set (-1): the result is `b` or -1. */
  function OrSign(a: int, b: Int32): (r: Int32)
    requires a == 0 || a == -1
    ensures a == 0 ==> r == b
    ensures a == -1 ==> r == -1
  {
    if a == 0 then b else -1
  }

  /** `GetHashCode`: `((short)z >> 16) | x`. The arithmetic shift of a
      widened 16-bit value is a floor division by 2^16 and keeps only its
      sign, 0 or -1. */
  function HashCode(t: ChunkTuple): (h: Int32)
    requires -0x8000_0000 <= t.x < 0x8000_0000
    ensures h == t.x || h == -1
    ensures 0 <= ToShort(t.z) ==> h == t.x
  {
    var shifted := ToShort(t.z) / 0x1_0000;
    OrSign(shifted, t.x)
  }

  /** The hash is x when the low 16 bits of z read as a non-negative short,
      and -1 otherwise: z contributes only one bit of information. */
  lemma HashCodeClosedForm(t: ChunkTuple)
    requires -0x8000_0000 <= t.x < 0x8000_0000
    ensures HashCode(t) == if ToShort(t.z) < 0 then -1 else t.x
  {
  }

  /** Equal tuples have equal hash codes: the consistency between `Equals`
      and `GetHashCode` that the dictionaries keyed by `ChunkTuple` rely
      on. Both read only x and z, so it holds by congruence. */
  lemma EqualTuplesEqualHashes(a: ChunkTuple, b: ChunkTuple)
    requires -0x8000_0000 <= a.x < 0x8000_0000
    requires EqualsGuarded(a, Some(b))
    ensures HashCode(a) == HashCode(b)
  {
  }

  /** Every tuple of one x with z in 0 .. 32767 shares one hash code. */
  lemma HashIgnoresSmallZ(x: int, z1: int, z2: int)
    requires -0x8000_0000 <= x < 0x8000_0000
    requires 0 <= z1 < 0x8000 && 0 <= z2 < 0x8000
    ensures HashCode(ChunkTuple(x, z1)) == HashCode(ChunkTuple(x, z2)) == x
  {
    HashCodeClosedForm(ChunkTuple(x, z1));
    HashCodeClosedForm(ChunkTuple(x, z2));
  }
}
