/**
  The primitive values of Kafka's wire format, as byte sequences: big-endian integers in two's
  complement, and the zigzag varints of the Protocol Buffers encoding.
 */
module Wire {
  type byte = x: int | 0 <= x < 256

  const MAX_INT16 := 0x7fff
  const MAX_INT32 := 0x7fff_ffff

  // ---------------------------------------------------------------- fixed-width integers

  function Be(v: int, width: nat): (s: seq<byte>)
    ensures |s| == width
    decreases width
  {
    if width == 0 then [] else Be(v / 256, width - 1) + [v % 256]
  }

  function Signed(s: seq<byte>): int
    requires s != []
  {
    var n := |s| - 1;
    if n == 0 then (if s[0] >= 128 then s[0] - 256 else s[0]) else 256 * Signed(s[..n]) + s[n]
  }

  /** Conversion to a signed 32-bit integer. */
  function Wrap32(v: int): int {
    (v + 0x8000_0000) % 0x1_0000_0000 - 0x8000_0000
  }

  /** Conversion to a signed 64-bit integer. */
  function Wrap64(v: int): int {
    (v + 0x8000_0000_0000_0000) % 0x1_0000_0000_0000_0000 - 0x8000_0000_0000_0000
  }

  /** v fits a signed integer of `width` bytes. */
  predicate Fits(v: int, width: nat)
    decreases width
  {
    if width == 0 then false
    else if width == 1 then -128 <= v < 128
    else Fits(v / 256, width - 1)
  }

  lemma FitsRange(v: int)
    ensures Fits(v, 2) <==> -0x8000 <= v < 0x8000
    ensures Fits(v, 4) <==> -0x8000_0000 <= v < 0x8000_0000
    ensures Fits(v, 8) <==> -0x8000_0000_0000_0000 <= v < 0x8000_0000_0000_0000
  {
    var a := v / 256;
    var b := a / 256;
    var c := b / 256;
    var d := c / 256;
    var e := d / 256;
    var f := e / 256;
    var g := f / 256;
    assert Fits(v, 2) <==> Fits(a, 1);
    assert Fits(v, 4) <==> Fits(a, 3) <==> Fits(b, 2) <==> Fits(c, 1);
    assert Fits(v, 8) <==> Fits(a, 7);
    assert Fits(a, 7) <==> Fits(b, 6);
    assert Fits(b, 6) <==> Fits(c, 5);
    assert Fits(c, 5) <==> Fits(d, 4);
    assert Fits(d, 4) <==> Fits(e, 3);
    assert Fits(e, 3) <==> Fits(f, 2);
    assert Fits(f, 2) <==> Fits(g, 1);
  }

  lemma {:induction false} SignedBe(v: int, width: nat)
    requires Fits(v, width)
    ensures width > 0 && Signed(Be(v, width)) == v
    decreases width
  {
    if width == 1 {
      assert Be(v, 1) == Be(v / 256, 0) + [v % 256];
      assert Be(v, 1) == [v % 256];
    } else {
      SignedBe(v / 256, width - 1);
      assert Be(v, width)[..width - 1] == Be(v / 256, width - 1);
    }
  }

  // ---------------------------------------------------------------- varints

  function ZigZag(v: int): nat {
    if v >= 0 then 2 * v else -2 * v - 1
  }

  function UnZigZag(n: nat): int {
    if n % 2 == 0 then n / 2 else -((n + 1) / 2)
  }

  function Uvarint(n: nat): (s: seq<byte>)
    ensures |s| >= 1
  {
    if n < 128 then [n] else [128 + n % 128] + Uvarint(n / 128)
  }

  function Varint(v: int): (s: seq<byte>)
    ensures |s| >= 1
  {
    Uvarint(ZigZag(v))
  }

  datatype VarintRead = Short | Overflow(size: nat) | Value(n: nat, size: nat)

  const MAX_VARINT_LEN := 10

  /** binary.Uvarint from index i on: ten bytes at most, and only one bit in the tenth. */
  function ReadUvarint(s: seq<byte>, i: nat): (r: VarintRead)
    requires i <= |s|
    ensures !r.Short? ==> i < r.size <= |s|
    decreases |s| - i
  {
    if i == |s| then Short
    else if i == MAX_VARINT_LEN then Overflow(i + 1)
    else if s[i] < 128 then
      if i == MAX_VARINT_LEN - 1 && s[i] > 1 then Overflow(i + 1) else Value(s[i], i + 1)
    else
      match ReadUvarint(s, i + 1)
      case Value(n, size) => Value(s[i] - 128 + 128 * n, size)
      case other => other
  }

  /** What is left of an unsigned 64-bit value once i groups of seven bits are gone. */
  function Cap(i: nat): nat
    decreases 9 - i
  {
    if i >= 9 then 2 else 128 * Cap(i + 1)
  }

  lemma Cap64()
    ensures Cap(0) == 0x1_0000_0000_0000_0000
  {
    assert Cap(9) == 2;
    assert Cap(8) == 256;
    assert Cap(7) == 128 * 256;
    assert Cap(6) == 128 * 128 * 256;
    assert Cap(5) == 128 * 128 * 128 * 256;
    assert Cap(4) == 128 * Cap(5);
    assert Cap(3) == 128 * Cap(4);
    assert Cap(2) == 128 * Cap(3);
    assert Cap(1) == 128 * Cap(2);
  }

  lemma {:induction false} ReadWritten(p: seq<byte>, n: nat, rest: seq<byte>)
    requires |p| <= 9 && n < Cap(|p|)
    ensures ReadUvarint(p + Uvarint(n) + rest, |p|) == Value(n, |p + Uvarint(n)|)
    decreases n
  {
    var s := p + Uvarint(n) + rest;
    if n < 128 {
      assert s[|p|] == n;
    } else {
      var b: byte := 128 + n % 128;
      assert s[|p|] == b;
      ReadWritten(p + [b], n / 128, rest);
      assert s == p + [b] + Uvarint(n / 128) + rest;
      assert p + Uvarint(n) == p + [b] + Uvarint(n / 128);
    }
  }

  /** The encoder fills the ten bytes that the decoder allows, and no more. */
  lemma {:induction false} UvarintLength(n: nat, i: nat)
    requires i <= 9 && n < Cap(i)
    ensures |Uvarint(n)| <= 10 - i
    decreases n
  {
    if n >= 128 {
      UvarintLength(n / 128, i + 1);
    }
  }

  lemma ZigZagBack(v: int)
    ensures UnZigZag(ZigZag(v)) == v
  {}

  /** A 64-bit value written as a varint is read back, whatever follows it. */
  lemma VarintReadBack(v: int, rest: seq<byte>)
    requires Fits(v, 8)
    ensures var r := ReadUvarint(Varint(v) + rest, 0);
            r.Value? && r.size == |Varint(v)| && UnZigZag(r.n) == v
  {
    FitsRange(v);
    Cap64();
    ReadWritten([], ZigZag(v), rest);
    assert [] + Varint(v) + rest == Varint(v) + rest;
    assert [] + Varint(v) == Varint(v);
    ZigZagBack(v);
  }
}
