/** The byte conversions the chunk file uses: `BitConverter.GetBytes`,
    `ToInt32` and `ToInt64` on a little-endian machine, that is two's
    complement with the least significant byte first. */
module BitConverter {

  type Byte = b: int | 0 <= b < 0x100

  type Int32 = v: int | -0x8000_0000 <= v < 0x8000_0000

  type Int64 = v: int | -0x8000_0000_0000_0000 <= v < 0x8000_0000_0000_0000

  /** 256 to the power `n`: the number of values `n` bytes can hold. */
  function Pow256(n: nat): (p: nat)
    ensures p > 0
  {
    if n == 0 then 1 else 0x100 * Pow256(n - 1)
  }

  /** The `n` low bytes of `v`, least significant first. */
  function Unsigned(v: nat, n: nat): (bs: seq<Byte>)
    ensures |bs| == n
  {
    if n == 0 then [] else [v % 0x100] + Unsigned(v / 0x100, n - 1)
  }

  /** The number `bs` spells, least significant byte first. */
  function ValueOf(bs: seq<Byte>): (v: nat)
    ensures v < Pow256(|bs|)
  {
    if bs == [] then 0 else bs[0] + 0x100 * ValueOf(bs[1..])
  }

  /** Reading back `n` written bytes gives the value, when it fits. */
  lemma {:induction false} ValueOfUnsigned(v: nat, n: nat)
    requires v < Pow256(n)
    ensures ValueOf(Unsigned(v, n)) == v
  {
    if n > 0 {
      assert v / 0x100 < Pow256(n - 1);
      ValueOfUnsigned(v / 0x100, n - 1);
      assert Unsigned(v, n)[1..] == Unsigned(v / 0x100, n - 1);
    }
  }

  /** Writing back the value of some bytes gives the same bytes. */
  lemma {:induction false} UnsignedValueOf(bs: seq<Byte>)
    ensures Unsigned(ValueOf(bs), |bs|) == bs
  {
    if bs != [] {
      var v, w := ValueOf(bs), ValueOf(bs[1..]);
      assert v % 0x100 == bs[0] && v / 0x100 == w;
      UnsignedValueOf(bs[1..]);
    }
  }

  /** The last byte is the most significant: it counts 256^(n-1) times. */
  lemma {:induction false} ValueOfTop(bs: seq<Byte>)
    requires |bs| > 0
    ensures ValueOf(bs) == ValueOf(bs[..|bs| - 1]) + Pow256(|bs| - 1) * bs[|bs| - 1]
    ensures ValueOf(bs[..|bs| - 1]) < Pow256(|bs| - 1)
    decreases |bs|
  {
    var n := |bs|;
    if n > 1 {
      var rest := bs[1..];
      ValueOfTop(rest);
      var low, p, top := ValueOf(rest[..n - 2]), Pow256(n - 2), bs[n - 1];
      assert rest[..n - 2] == bs[..n - 1][1..];
      assert ValueOf(bs[..n - 1]) == bs[0] + 0x100 * low;
      assert Pow256(n - 1) == 0x100 * p;
      assert (0x100 * p) * top == 0x100 * (p * top) by { MulAssoc(0x100, p, top); }
    } else {
      assert bs[..0] == [];
    }
  }

  lemma MulAssoc(a: int, b: int, c: int)
    ensures (a * b) * c == a * (b * c)
  {
  }

  const TwoTo32: int := 0x1_0000_0000

  const TwoTo64: int := 0x1_0000_0000_0000_0000

  /** `GetBytes(int)`: four bytes, two's complement. */
  function GetBytes32(v: Int32): (bs: seq<Byte>)
    ensures |bs| == 4
  {
    Unsigned(if v < 0 then v + TwoTo32 else v, 4)
  }

  /** `ToInt32` on four bytes: the int congruent to the bytes' value modulo
      2^32, negative exactly when the top bit of the last byte is set. */
  function ToInt32(bs: seq<Byte>): (v: Int32)
    requires |bs| == 4
    ensures (v - ValueOf(bs)) % TwoTo32 == 0
    ensures v < 0 <==> bs[3] >= 0x80
  {
    assert Pow256(4) == TwoTo32;
    ValueOfTop(bs);
    assert Pow256(3) == 0x100_0000;
    var u := ValueOf(bs);
    if u >= 0x8000_0000 then u - TwoTo32 else u
  }

  /** `GetBytes(long)`: eight bytes, two's complement. */
  function GetBytes64(v: Int64): (bs: seq<Byte>)
    ensures |bs| == 8
  {
    Unsigned(if v < 0 then v + TwoTo64 else v, 8)
  }

  /** `ToInt64` on eight bytes: the long congruent to the bytes' value
      modulo 2^64, negative exactly when the top bit of the last byte is
      set. */
  function ToInt64(bs: seq<Byte>): (v: Int64)
    requires |bs| == 8
    ensures (v - ValueOf(bs)) % TwoTo64 == 0
    ensures v < 0 <==> bs[7] >= 0x80
  {
    assert Pow256(8) == TwoTo64;
    ValueOfTop(bs);
    assert Pow256(7) == 0x100_0000_0000_0000;
    var u := ValueOf(bs);
    if u >= 0x8000_0000_0000_0000 then u - TwoTo64 else u
  }

  /** Every int survives the trip through its four bytes. */
  lemma Int32RoundTrip(v: Int32)
    ensures ToInt32(GetBytes32(v)) == v
  {
    assert Pow256(4) == TwoTo32;
    ValueOfUnsigned(if v < 0 then v + TwoTo32 else v, 4);
  }

  /** Every four bytes are the encoding of the int they decode to. */
  lemma Int32Bytes(bs: seq<Byte>)
    requires |bs| == 4
    ensures GetBytes32(ToInt32(bs)) == bs
  {
    assert Pow256(4) == TwoTo32;
    UnsignedValueOf(bs);
  }

  /** Every long survives the trip through its eight bytes. */
  lemma Int64RoundTrip(v: Int64)
    ensures ToInt64(GetBytes64(v)) == v
  {
    assert Pow256(8) == TwoTo64;
    ValueOfUnsigned(if v < 0 then v + TwoTo64 else v, 8);
  }

  /** Every eight bytes are the encoding of the long they decode to. */
  lemma Int64Bytes(bs: seq<Byte>)
    requires |bs| == 8
    ensures GetBytes64(ToInt64(bs)) == bs
  {
    assert Pow256(8) == TwoTo64;
    UnsignedValueOf(bs);
  }
}
