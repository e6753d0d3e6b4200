/**
  The protocol decoder. Each getter is specified by a function from the bytes that are left to
  the value read and the bytes left after it; the class RealDecoder reads the same values by
  moving an offset over the packet.
 */
module Decoder {
  import opened Wrappers
  import opened Wire
  import opened Encoder

  datatype DecodeError =
    | InsufficientData
    | InvalidArrayLength
    | InvalidByteSliceLength
    | VarintOverflow
    | LengthFieldInvalid
    | CrcMismatch
    | InvalidLength
    | UnknownMagic
    | UnknownRecordsType
    | DecompressionFailed

  datatype Result<+T> = Ok(value: T) | Err(error: DecodeError) {
    predicate IsFailure() {
      Err?
    }

    function PropagateFailure<U>(): Result<U>
      requires Err?
    {
      Err(error)
    }

    function Extract(): T
      requires Ok?
    {
      value
    }
  }

  /** A value, and the bytes that follow it. */
  type Read<+T> = Result<(T, seq<byte>)>

  const MAX_ARRAY_LENGTH := 2 * 0xffff

  // ---------------------------------------------------------------- getters

  function GetInt(s: seq<byte>, width: nat): (r: Read<int>)
    requires width > 0
    ensures r.Ok? ==> |r.value.1| <= |s|
  {
    if |s| < width then Err(InsufficientData) else Ok((Signed(s[..width]), s[width..]))
  }

  function GetVarint(s: seq<byte>): (r: Read<int>)
    ensures r.Ok? ==> |r.value.1| <= |s|
  {
    match ReadUvarint(s, 0)
    case Short => Err(InsufficientData)
    case Overflow(_) => Err(VarintOverflow)
    case Value(n, size) => Ok((UnZigZag(n), s[size..]))
  }

  function GetArrayLength(s: seq<byte>): (r: Read<int>)
    ensures r.Ok? ==> |r.value.1| <= |s|
  {
    var (n, rest) :- GetInt(s, 4);
    if n > |rest| then Err(InsufficientData)
    else if n > MAX_ARRAY_LENGTH then Err(InvalidArrayLength)
    else Ok((n, rest))
  }

  function GetRawBytes(s: seq<byte>, length: int): (r: Read<seq<byte>>)
    ensures r.Ok? ==> |r.value.1| <= |s|
  {
    if length < 0 then Err(InvalidByteSliceLength)
    else if length > |s| then Err(InsufficientData)
    else Ok((s[..length], s[length..]))
  }

  function GetBytes(s: seq<byte>): (r: Read<Option<seq<byte>>>)
    ensures r.Ok? ==> |r.value.1| <= |s|
  {
    var (n, rest) :- GetInt(s, 4);
    if n == -1 then Ok((None, rest))
    else
      var (b, after) :- GetRawBytes(rest, n);
      Ok((Some(b), after))
  }

  function GetVarintBytes(s: seq<byte>): (r: Read<Option<seq<byte>>>)
    ensures r.Ok? ==> |r.value.1| <= |s|
  {
    var (n, rest) :- GetVarint(s);
    if n == -1 then Ok((None, rest))
    else
      var (b, after) :- GetRawBytes(rest, n);
      Ok((Some(b), after))
  }

  // ---------------------------------------------------------------- getters undo putters

  lemma IntBack(v: int, width: nat, rest: seq<byte>)
    requires Fits(v, width)
    ensures width > 0 && GetInt(ItemBytes(Int(v, width)) + rest, width) == Ok((v, rest))
  {
    SignedBe(v, width);
    var s := Be(v, width) + rest;
    assert s[..width] == Be(v, width) && s[width..] == rest;
  }

  lemma VarintBack(v: int, rest: seq<byte>)
    requires Fits(v, 8)
    ensures GetVarint(Varint(v) + rest) == Ok((v, rest))
  {
    VarintReadBack(v, rest);
    assert (Varint(v) + rest)[|Varint(v)|..] == rest;
  }

  lemma RawBack(b: seq<byte>, rest: seq<byte>)
    ensures GetRawBytes(b + rest, |b|) == Ok((b, rest))
  {
    assert (b + rest)[..|b|] == b && (b + rest)[|b|..] == rest;
  }

  /** Null and empty byte strings stay apart. */
  lemma BytesBack(b: Option<seq<byte>>, rest: seq<byte>)
    requires ItemFits(Bytes(b))
    ensures GetBytes(ItemBytes(Bytes(b)) + rest) == Ok((b, rest))
  {
    hide Fits, Be, GetInt, GetRawBytes;
    match b {
      case None =>
        FitsRange(-1);
        IntBack(-1, 4, rest);
      case Some(s) =>
        FitsRange(|s|);
        IntBack(|s|, 4, s + rest);
        RawBack(s, rest);
        assert Be(|s|, 4) + s + rest == Be(|s|, 4) + (s + rest);
    }
  }

  lemma VarintBytesBack(b: Option<seq<byte>>, rest: seq<byte>)
    requires ItemFits(VarintBytes(b))
    ensures GetVarintBytes(ItemBytes(VarintBytes(b)) + rest) == Ok((b, rest))
  {
    hide Fits, Varint, GetVarint, GetRawBytes;
    match b {
      case None =>
        FitsRange(-1);
        VarintBack(-1, rest);
      case Some(s) =>
        FitsRange(|s|);
        VarintBack(|s|, s + rest);
        RawBack(s, rest);
        assert Varint(|s|) + s + rest == Varint(|s|) + (s + rest);
    }
  }

  /** An array length is refused if it exceeds the bytes left or the fixed limit. */
  lemma ArrayLengthBack(n: nat, rest: seq<byte>)
    requires n <= MAX_INT32
    ensures GetArrayLength(ItemBytes(ArrayLength(n)) + rest) ==
            if n > |rest| then Err(InsufficientData)
            else if n > MAX_ARRAY_LENGTH then Err(InvalidArrayLength)
            else Ok((n, rest))
  {
    hide Fits, Be, GetInt;
    FitsRange(n);
    IntBack(n, 4, rest);
  }

  // ---------------------------------------------------------------- the decoder object

  datatype PushDecoder =
    | PullLength(l: LengthField)
    | PullVarint(v: VarintLengthField)
    | PullCrc(c: Crc32Field, sum: Checksum)
  {
    function Object(): object {
      match this
      case PullLength(l) => l
      case PullVarint(v) => v
      case PullCrc(c, _) => c
    }

    ghost function Start(): nat
      reads Object()
    {
      match this
      case PullLength(l) => l.startOffset
      case PullVarint(v) => v.startOffset
      case PullCrc(c, _) => c.startOffset
    }

    ghost function Length(): int
      reads Object()
    {
      match this
      case PullLength(l) => l.length
      case PullVarint(v) => v.length
      case PullCrc(_, _) => 0
    }

    function Kind(): FieldKind {
      match this
      case PullLength(_) => KindLength
      case PullVarint(_) => KindVarint
      case PullCrc(_, _) => KindCrc
    }
  }

  datatype FieldKind = KindLength | KindVarint | KindCrc

  function Skip(s: seq<byte>, n: nat): Read<()> {
    if |s| < n then Err(InsufficientData) else Ok(((), s[n..]))
  }

  /** A four-byte length must not promise more than is left. */
  function GetLength32(s: seq<byte>): (r: Read<int>)
    ensures r.Ok? ==> |r.value.1| <= |s|
  {
    var (n, rest) :- GetInt(s, 4);
    if n > Wrap32(|rest|) then Err(InsufficientData) else Ok((n, rest))
  }

  function Header(p: PushDecoder, s: seq<byte>): Read<int> {
    match p
    case PullLength(_) => GetLength32(s)
    case PullVarint(_) => GetVarint(s)
    case PullCrc(_, _) => Ok((0, s))
  }

  /** The check of a field against the bytes from its start on. */
  function Check(kind: FieldKind, length: int, covered: seq<byte>, crc: Checksum): Result<()>
    requires kind.KindCrc? ==> |covered| >= 4
  {
    match kind
    case KindLength => if Wrap32(|covered| - 4) != length then Err(LengthFieldInvalid) else Ok(())
    case KindVarint => if |covered| - |Varint(length)| != length then Err(LengthFieldInvalid) else Ok(())
    case KindCrc => if covered[..4] != Be(crc(covered[4..]), 4) then Err(CrcMismatch) else Ok(())
  }

  /** What a getter of the object returns and leaves is what the function says. */
  ghost predicate Agrees<T(!new)>(r: Result<T>, left: seq<byte>, spec: Read<T>) {
    match spec
    case Ok(p) => r == Ok(p.0) && left == p.1
    case Err(e) => r == Err(e)
  }

  /** What a loop has read so far, put before what is still to be read. */
  ghost function Prepend<T(!new)>(done: seq<T>, r: Read<seq<T>>): Read<seq<T>> {
    match r
    case Ok(p) => Ok((done + p.0, p.1))
    case Err(e) => Err(e)
  }

  class RealDecoder {
    const raw: seq<byte>
    var off: nat
    var stack: seq<PushDecoder>

    ghost predicate Valid()
      reads this
    {
      off <= |raw|
    }

    ghost function Rest(): seq<byte>
      requires Valid()
      reads this
    {
      raw[off..]
    }

    constructor (raw: seq<byte>)
      ensures Valid() && this.raw == raw && Rest() == raw && stack == []
    {
      this.raw := raw;
      off := 0;
      stack := [];
    }

    function Remaining(): (n: nat)
      requires Valid()
      reads this
      ensures n == |Rest()|
    {
      |raw| - off
    }

    method ReadInt(width: nat) returns (r: Result<int>)
      requires Valid() && width > 0
      modifies `off
      ensures Valid() && Agrees(r, Rest(), GetInt(old(Rest()), width))
    {
      if Remaining() < width {
        off := |raw|;
        return Err(InsufficientData);
      }
      r := Ok(Signed(raw[off..off + width]));
      assert raw[off..][..width] == raw[off..off + width];
      off := off + width;
    }

    method ReadVarint() returns (r: Result<int>)
      requires Valid()
      modifies `off
      ensures Valid() && Agrees(r, Rest(), GetVarint(old(Rest())))
    {
      match ReadUvarint(raw[off..], 0) {
        case Short =>
          off := |raw|;
          r := Err(InsufficientData);
        case Overflow(size) =>
          off := off + size;
          r := Err(VarintOverflow);
        case Value(n, size) =>
          off := off + size;
          r := Ok(UnZigZag(n));
      }
    }

    method ReadArrayLength() returns (r: Result<int>)
      requires Valid()
      modifies `off
      ensures Valid() && Agrees(r, Rest(), GetArrayLength(old(Rest())))
    {
      hide GetInt;
      var n :- ReadInt(4);
      if n > Remaining() {
        off := |raw|;
        return Err(InsufficientData);
      } else if n > MAX_ARRAY_LENGTH {
        return Err(InvalidArrayLength);
      }
      r := Ok(n);
    }

    method ReadRawBytes(length: int) returns (r: Result<seq<byte>>)
      requires Valid()
      modifies `off
      ensures Valid() && Agrees(r, Rest(), GetRawBytes(old(Rest()), length))
      ensures r == Err(InsufficientData) ==> Rest() == []
    {
      if length < 0 {
        return Err(InvalidByteSliceLength);
      } else if length > Remaining() {
        off := |raw|;
        return Err(InsufficientData);
      }
      var start := off;
      off := off + length;
      r := Ok(raw[start..off]);
      assert raw[start..off] == raw[start..][..length];
    }

    method ReadBytes() returns (r: Result<Option<seq<byte>>>)
      requires Valid()
      modifies `off
      ensures Valid() && Agrees(r, Rest(), GetBytes(old(Rest())))
    {
      hide GetInt, GetRawBytes;
      var n :- ReadInt(4);
      if n == -1 { return Ok(None); }
      var b :- ReadRawBytes(n);
      r := Ok(Some(b));
    }

    method ReadVarintBytes() returns (r: Result<Option<seq<byte>>>)
      requires Valid()
      modifies `off
      ensures Valid() && Agrees(r, Rest(), GetVarintBytes(old(Rest())))
    {
      hide GetVarint, GetRawBytes;
      var n :- ReadVarint();
      if n == -1 { return Ok(None); }
      var b :- ReadRawBytes(n);
      r := Ok(Some(b));
    }

    /**
      Remembers where the field starts, reads a length or skips a checksum, and leaves the field
      on the stack.
     */
    method Push(p: PushDecoder) returns (r: Result<()>)
      requires Valid() && p.Object() != this
      modifies this, p.Object()
      ensures Valid()
      ensures r.Ok? ==> stack == old(stack) + [p] && p.Start() == old(off)
      ensures p.PullCrc? ==> Agrees(r, Rest(), Skip(old(Rest()), 4))
      ensures !p.PullCrc? ==>
        match Header(p, old(Rest()))
        case Ok(h) => r == Ok(()) && p.Length() == h.0 && Rest() == h.1
        case Err(e) => r == Err(e)
    {
      hide GetInt, GetVarint;
      match p {
        case PullLength(l) =>
          l.startOffset := off;
          l.length :- ReadInt(4);
          if l.length > Wrap32(Remaining()) { return Err(InsufficientData); }
        case PullVarint(v) =>
          v.startOffset := off;
          v.length :- ReadVarint();
        case PullCrc(c, _) =>
          c.startOffset := off;
          if Remaining() < 4 {
            off := |raw|;
            return Err(InsufficientData);
          }
          off := off + 4;
      }
      stack := stack + [p];
      r := Ok(());
    }

    /** Takes the field off the stack and compares it with the bytes since it was pushed. */
    method Pop(ghost crc: Checksum) returns (r: Result<()>)
      requires Valid() && stack != []
      requires var p := stack[|stack| - 1];
               p.Start() <= off && (p.PullCrc? ==> p.Start() + 4 <= off && p.sum == crc)
      modifies `stack
      ensures stack == old(stack[..|stack| - 1])
      ensures var p := old(stack[|stack| - 1]);
              r == Check(p.Kind(), p.Length(), raw[p.Start()..off], crc)
    {
      var p := stack[|stack| - 1];
      stack := stack[..|stack| - 1];
      match p {
        case PullLength(l) =>
          if Wrap32(off - l.startOffset - 4) != l.length { return Err(LengthFieldInvalid); }
        case PullVarint(v) =>
          if off - v.startOffset - |Varint(v.length)| != v.length { return Err(LengthFieldInvalid); }
        case PullCrc(c, sum) =>
          var start := c.startOffset;
          assert raw[start..off][..4] == raw[start..start + 4];
          assert raw[start..off][4..] == raw[start + 4..off];
          if raw[start..start + 4] != Be(sum(raw[start + 4..off]), 4) { return Err(CrcMismatch); }
      }
      r := Ok(());
    }

    method PeekInt8(offset: nat) returns (r: Result<int>)
      requires Valid()
      ensures r == if |Rest()| < offset + 1 then Err(InsufficientData)
                   else Ok(Signed([Rest()[offset]]))
    {
      if Remaining() < offset + 1 { return Err(InsufficientData); }
      r := Ok(Signed([raw[off + offset]]));
    }
  }
}
