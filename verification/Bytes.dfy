/** Byte-level vocabulary shared by the whole model: bytes, 16- and 32-bit
    words, and the two byte orders the driver uses.  The driver runs on a
    little-endian microcontroller, so the byte view of its `leFrame` union
    lists the least significant byte first; the Modbus wire order is
    big-endian. */
module Bytes {

  type Byte = b: int | 0 <= b < 0x100
  type UInt16 = v: int | 0 <= v < 0x1_0000
  type UInt32 = v: int | 0 <= v < 0x1_0000_0000

  function Pow256(n: nat): (p: nat)
    ensures p >= 1
  {
    if n == 0 then 1 else 256 * Pow256(n - 1)
  }

  /** Value of a byte string read most significant byte first. */
  function BigEndian(s: seq<Byte>): nat
  {
    if s == [] then 0 else BigEndian(s[..|s| - 1]) * 256 + s[|s| - 1]
  }

  /** Value of a byte string read least significant byte first. */
  function LittleEndian(s: seq<Byte>): nat
  {
    if s == [] then 0 else s[0] + 256 * LittleEndian(s[1..])
  }

  function Reverse<T>(s: seq<T>): (r: seq<T>)
    ensures |r| == |s|
    ensures forall i :: 0 <= i < |s| ==> r[i] == s[|s| - 1 - i]
  {
    if s == [] then [] else Reverse(s[1..]) + [s[0]]
  }

  /** The byte view of a `leFrame` union after its integer member was set
      to `v`: `width` bytes, least significant first. */
  function LeFrame(v: nat, width: nat): (b: seq<Byte>)
    ensures |b| == width
  {
    if width == 0 then [] else [v % 256] + LeFrame(v / 256, width - 1)
  }

  /** Reading the byte view back in little-endian order gives the value,
      whenever it fits in the frame. */
  lemma {:induction false} LeFrameRoundTrip(v: nat, width: nat)
    requires v < Pow256(width)
    ensures LittleEndian(LeFrame(v, width)) == v
  {
    if width > 0 {
      var b := LeFrame(v, width);
      assert b[1..] == LeFrame(v / 256, width - 1);
      assert v / 256 < Pow256(width - 1);
      LeFrameRoundTrip(v / 256, width - 1);
    }
  }

  /** Reversing a byte string swaps the two byte orders. */
  lemma {:induction false} BigEndianOfReverse(s: seq<Byte>)
    ensures BigEndian(Reverse(s)) == LittleEndian(s)
  {
    if s != [] {
      var r := Reverse(s);
      assert r[..|r| - 1] == Reverse(s[1..]);
      BigEndianOfReverse(s[1..]);
    }
  }

  /** Big-endian value of a concatenation. */
  lemma {:induction false} BigEndianAppend(a: seq<Byte>, b: seq<Byte>)
    ensures BigEndian(a + b) == BigEndian(a) * Pow256(|b|) + BigEndian(b)
  {
    if b != [] {
      var ab := a + b;
      assert ab[..|ab| - 1] == a + b[..|b| - 1];
      BigEndianAppend(a, b[..|b| - 1]);
      var init := b[..|b| - 1];
      assert BigEndian(ab) == BigEndian(a + init) * 256 + b[|b| - 1];
      assert Pow256(|b|) == Pow256(|init|) * 256;
      ShiftByte(BigEndian(a), Pow256(|init|), BigEndian(init), b[|b| - 1]);
    } else {
      assert a + b == a;
    }
  }

  lemma ShiftByte(x: int, p: int, y: int, d: int)
    ensures (x * p + y) * 256 + d == x * (p * 256) + (y * 256 + d)
  {
  }

  /** A register's value: high byte times 256 plus low byte. */
  lemma BigEndianPair(hi: Byte, lo: Byte)
    ensures BigEndian([hi, lo]) == (hi as int) * 256 + lo
  {
    assert [hi][..0] == [];
    assert BigEndian([hi]) == hi;
    assert [hi, lo][..1] == [hi];
  }
}
