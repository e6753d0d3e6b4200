/**
  The two passes of the protocol encoder. An entity's encode method is run twice: against a
  PrepEncoder, which only counts, and against a RealEncoder, which writes into a buffer of the
  size the first pass found. A length or checksum is written by pushing a field before the bytes
  it covers and popping it after them; the length field of a record is itself of variable width,
  so the first pass has to correct its count when the field is popped.

  A Script is the trace of calls that an encode method makes, with its pushes and pops paired.
 */
module Encoder {
  import opened Wrappers
  import opened Wire

  datatype Item =
    | Int(v: int, width: nat)
    | VarintItem(v: int)
    | ArrayLength(n: int)
    | Bytes(bytes: Option<seq<byte>>)
    | VarintBytes(bytes: Option<seq<byte>>)
    | RawBytes(raw: seq<byte>)
    | Str(chars: seq<byte>)

  datatype Field = Length32 | Checksum32 | VarintLength(f: VarintLengthField)

  datatype Script =
    | Done
    | Put(item: Item, next: Script)
    | Nest(field: Field, body: Script, next: Script)

  /** The checksum of a byte string, as an unsigned 32-bit number. */
  type Checksum = seq<byte> -> nat

  // ---------------------------------------------------------------- what a script writes

  function ItemBytes(i: Item): seq<byte> {
    match i
    case Int(v, width) => Be(v, width)
    case VarintItem(v) => Varint(v)
    case ArrayLength(n) => Be(n, 4)
    case Bytes(None) => Be(-1, 4)
    case Bytes(Some(s)) => Be(|s|, 4) + s
    case VarintBytes(None) => Varint(-1)
    case VarintBytes(Some(s)) => Varint(|s|) + s
    case RawBytes(s) => s
    case Str(s) => Be(|s|, 2) + s
  }

  predicate ItemFits(i: Item) {
    match i
    case ArrayLength(n) => n <= MAX_INT32
    case Bytes(Some(s)) => |s| <= MAX_INT32
    case VarintBytes(Some(s)) => |s| <= MAX_INT32
    case RawBytes(s) => |s| <= MAX_INT32
    case Str(s) => |s| <= MAX_INT16
    case _ => true
  }

  function FieldBytes(field: Field, body: seq<byte>, crc: Checksum): seq<byte> {
    match field
    case Length32 => Be(|body|, 4)
    case Checksum32 => Be(crc(body), 4)
    case VarintLength(_) => Varint(|body|)
  }

  function WireForm(s: Script, crc: Checksum): seq<byte> {
    match s
    case Done => []
    case Put(i, next) => ItemBytes(i) + WireForm(next, crc)
    case Nest(field, body, next) =>
      var b := WireForm(body, crc);
      FieldBytes(field, b, crc) + b + WireForm(next, crc)
  }

  predicate Acceptable(s: Script) {
    match s
    case Done => true
    case Put(i, next) => ItemFits(i) && Acceptable(next)
    case Nest(_, body, next) => Acceptable(body) && Acceptable(next)
  }

  // ---------------------------------------------------------------- the records' length fields

  function Fields(s: Script): set<object> {
    match s
    case Done => {}
    case Put(_, next) => Fields(next)
    case Nest(field, body, next) =>
      Owner(field) + Fields(body) + Fields(next)
  }

  function Owner(field: Field): set<object> {
    if field.VarintLength? then {field.f} else {}
  }

  lemma FieldsAllocated(s: Script)
    ensures forall o :: o in Fields(s) ==> allocated(o)
  {
    match s
    case Done =>
    case Put(_, next) => FieldsAllocated(next);
    case Nest(field, body, next) =>
      FieldsAllocated(body);
      FieldsAllocated(next);
  }

  /** Every record owns its length field. */
  predicate Distinct(s: Script) {
    match s
    case Done => true
    case Put(_, next) => Distinct(next)
    case Nest(field, body, next) =>
      && Distinct(body) && Distinct(next)
      && Fields(body) !! Fields(next)
      && Owner(field) !! (Fields(body) + Fields(next))
  }

  /** The first pass has left in every length field the size of what the field covers. */
  ghost predicate Primed(s: Script, crc: Checksum)
    reads Fields(s)
  {
    match s
    case Done => true
    case Put(_, next) => Primed(next, crc)
    case Nest(field, body, next) =>
      && Primed(body, crc) && Primed(next, crc)
      && (field.VarintLength? ==> field.f.length == |WireForm(body, crc)|)
  }

  // ---------------------------------------------------------------- push encoders

  class LengthField {
    var startOffset: nat
    var length: int
    constructor () {
      startOffset := 0;
      length := 0;
    }
  }

  class VarintLengthField {
    var startOffset: nat
    var length: int
    constructor () {
      startOffset := 0;
      length := 0;
    }
  }

  class Crc32Field {
    var startOffset: nat
    constructor () {
      startOffset := 0;
    }
  }

  datatype PushEncoder =
    | PushLength(l: LengthField)
    | PushVarint(v: VarintLengthField)
    | PushCrc(c: Crc32Field)
  {
    function Object(): object {
      match this
      case PushLength(l) => l
      case PushVarint(v) => v
      case PushCrc(c) => c
    }

    function Start(): nat
      reads Object()
    {
      match this
      case PushLength(l) => l.startOffset
      case PushVarint(v) => v.startOffset
      case PushCrc(c) => c.startOffset
    }

    function ReserveLength(): (n: nat)
      reads Object()
    {
      match this
      case PushLength(_) => 4
      case PushVarint(v) => |Varint(v.length)|
      case PushCrc(_) => 4
    }

    method SaveOffset(offset: nat)
      modifies Object()
      ensures Start() == offset
      ensures PushVarint? ==> v.length == old(v.length)
    {
      match this {
        case PushLength(l) => l.startOffset := offset;
        case PushVarint(v) => v.startOffset := offset;
        case PushCrc(c) => c.startOffset := offset;
      }
    }
  }

  method Open(field: Field) returns (p: PushEncoder)
    ensures field.VarintLength? ==> p == PushVarint(field.f)
    ensures !field.VarintLength? ==> fresh(p.Object()) && !p.PushVarint?
    ensures field.Length32? ==> p.PushLength?
    ensures field.Checksum32? ==> p.PushCrc?
  {
    match field {
      case Length32 =>
        var l := new LengthField();
        p := PushLength(l);
      case Checksum32 =>
        var c := new Crc32Field();
        p := PushCrc(c);
      case VarintLength(f) =>
        p := PushVarint(f);
    }
  }

  // ---------------------------------------------------------------- first pass

  class PrepEncoder {
    var length: int
    var stack: seq<PushEncoder>

    constructor ()
      ensures length == 0 && stack == []
    {
      length := 0;
      stack := [];
    }

    /** The put methods: false is the error of an argument that is too long. */
    method Put(i: Item) returns (ok: bool)
      modifies `length
      ensures ok == ItemFits(i)
      ensures ok ==> length == old(length) + |ItemBytes(i)|
    {
      match i {
        case Int(v, width) => length := length + width;
        case VarintItem(v) => length := length + |Varint(v)|;
        case ArrayLength(n) =>
          if n > MAX_INT32 { return false; }
          length := length + 4;
        case Bytes(None) => length := length + 4;
        case Bytes(Some(s)) =>
          length := length + 4;
          if |s| > MAX_INT32 { return false; }
          length := length + |s|;
        case VarintBytes(None) => length := length + |Varint(-1)|;
        case VarintBytes(Some(s)) =>
          length := length + |Varint(|s|)|;
          if |s| > MAX_INT32 { return false; }
          length := length + |s|;
        case RawBytes(s) =>
          if |s| > MAX_INT32 { return false; }
          length := length + |s|;
        case Str(s) =>
          length := length + 2;
          if |s| > MAX_INT16 { return false; }
          length := length + |s|;
      }
      ok := true;
    }

    method Push(p: PushEncoder)
      requires length >= 0
      requires p.Object() != this
      modifies this, p.Object()
      ensures p.Start() == old(length)
      ensures length == old(length) + old(p.ReserveLength())
      ensures stack == old(stack) + [p]
      ensures p.PushVarint? ==> p.v.length == old(p.v.length)
    {
      p.SaveOffset(length);
      length := length + p.ReserveLength();
      stack := stack + [p];
    }

    /** Pops the field and corrects the count by as much as the width of a varint has changed. */
    method Pop()
      requires stack != []
      requires stack[|stack| - 1].Object() != this
      modifies this, stack[|stack| - 1].Object()
      ensures stack == old(stack[..|stack| - 1])
      ensures var p := old(stack[|stack| - 1]);
              if p.PushVarint? then
                && p.v.length == old(length) - old(p.v.startOffset) - |Varint(old(p.v.length))|
                && length == old(length) - |Varint(old(p.v.length))| + |Varint(p.v.length)|
              else length == old(length)
    {
      var p := stack[|stack| - 1];
      stack := stack[..|stack| - 1];
      if p.PushVarint? {
        var f := p.v;
        var oldFieldSize := |Varint(f.length)|;
        f.length := length - f.startOffset - oldFieldSize;
        length := length + (|Varint(f.length)| - oldFieldSize);
      }
    }

    /**
      The first pass fails exactly when some argument is too long; otherwise it has counted the
      bytes of the script and primed the length fields, whatever the fields held before.
     */
    method Run(s: Script, ghost crc: Checksum) returns (ok: bool)
      requires length >= 0 && Distinct(s) && this !in Fields(s)
      modifies this, Fields(s)
      ensures ok == Acceptable(s)
      ensures ok ==> length == old(length) + |WireForm(s, crc)| && stack == old(stack) && Primed(s, crc)
      decreases s, 0
    {
      hide ItemBytes, ItemFits, Varint, Be;
      FieldsAllocated(s);
      match s {
        case Done => return true;
        case Put(i, next) =>
          ok := Put(i);
          if !ok { return; }
          ok := Run(next, crc);
        case Nest(field, body, next) =>
          ok := RunNested(field, body, crc);
          if !ok { return; }
          ok := Run(next, crc);
      }
    }

    method RunNested(field: Field, body: Script, ghost crc: Checksum) returns (ok: bool)
      requires length >= 0 && Distinct(body)
      requires Owner(field) !! Fields(body) && this !in Owner(field) + Fields(body)
      modifies this, Owner(field), Fields(body)
      ensures ok == Acceptable(body)
      ensures ok ==> stack == old(stack) && Primed(body, crc)
      ensures ok && field.VarintLength? ==> field.f.length == |WireForm(body, crc)|
      ensures ok ==> var b := WireForm(body, crc);
                     length == old(length) + |FieldBytes(field, b, crc)| + |b|
      decreases body, 1
    {
      hide WireForm, Acceptable, Primed, Fields, Distinct, Varint;
      FieldsAllocated(body);
      var p := Open(field);
      Push(p);
      ghost var pushed := stack;
      ok := Run(body, crc);
      if !ok { return; }
      assert stack == pushed && stack[|stack| - 1] == p && stack[..|stack| - 1] == old(stack);
      Pop();
    }
  }

  // ---------------------------------------------------------------- second pass

  /** s with the bytes w written over it from offset `at` on. */
  function Splice(s: seq<byte>, at: nat, w: seq<byte>): (r: seq<byte>)
    requires at + |w| <= |s|
    ensures |r| == |s|
  {
    s[..at] + w + s[at + |w|..]
  }

  lemma SpliceNone(s: seq<byte>, at: nat)
    requires at <= |s|
    ensures Splice(s, at, []) == s
  {}

  lemma SpliceNext(s: seq<byte>, at: nat, u: seq<byte>, v: seq<byte>)
    requires at + |u| + |v| <= |s|
    ensures Splice(Splice(s, at, u), at + |u|, v) == Splice(s, at, u + v)
  {}

  lemma SpliceBefore(s: seq<byte>, at: nat, u: seq<byte>, v: seq<byte>)
    requires at + |u| + |v| <= |s|
    ensures Splice(Splice(s, at + |u|, v), at, u) == Splice(s, at, u + v)
  {}

  class RealEncoder {
    const raw: array<byte>
    const crc: Checksum
    var off: nat
    var stack: seq<PushEncoder>

    constructor (raw: array<byte>, crc: Checksum)
      ensures this.raw == raw && this.crc == crc && off == 0 && stack == []
    {
      this.raw := raw;
      this.crc := crc;
      off := 0;
      stack := [];
    }

    method Write(w: seq<byte>)
      requires off + |w| <= raw.Length
      modifies `off, raw
      ensures off == old(off) + |w|
      ensures raw[..] == Splice(old(raw[..]), old(off), w)
    {
      WriteAt(off, w);
      off := off + |w|;
    }

    method WriteAt(at: nat, w: seq<byte>)
      requires at + |w| <= raw.Length
      modifies raw
      ensures raw[..] == Splice(old(raw[..]), at, w)
    {
      var i := 0;
      while i < |w|
        invariant 0 <= i <= |w|
        invariant raw[..at] == old(raw[..at]) && raw[at + i..] == old(raw[at + i..])
        invariant forall k :: 0 <= k < i ==> raw[at + k] == w[k]
      {
        raw[at + i] := w[i];
        i := i + 1;
      }
    }

    method Put(i: Item)
      requires off + |ItemBytes(i)| <= raw.Length
      modifies `off, raw
      ensures off == old(off) + |ItemBytes(i)|
      ensures raw[..] == Splice(old(raw[..]), old(off), ItemBytes(i))
    {
      hide Be, Varint, Splice;
      match i {
        case Int(v, width) => Write(Be(v, width));
        case VarintItem(v) => Write(Varint(v));
        case ArrayLength(n) => Write(Be(n, 4));
        case Bytes(None) => Write(Be(-1, 4));
        case Bytes(Some(s)) => WriteBoth(Be(|s|, 4), s);
        case VarintBytes(None) => Write(Varint(-1));
        case VarintBytes(Some(s)) => WriteBoth(Varint(|s|), s);
        case RawBytes(s) => Write(s);
        case Str(s) => WriteBoth(Be(|s|, 2), s);
      }
    }

    method WriteBoth(u: seq<byte>, v: seq<byte>)
      requires off + |u + v| <= raw.Length
      modifies `off, raw
      ensures off == old(off) + |u + v|
      ensures raw[..] == Splice(old(raw[..]), old(off), u + v)
    {
      Write(u);
      Write(v);
      SpliceNext(old(raw[..]), old(off), u, v);
    }

    method Push(p: PushEncoder)
      requires p.Object() != this
      modifies `off, `stack, p.Object()
      ensures p.Start() == old(off)
      ensures off == old(off) + old(p.ReserveLength())
      ensures stack == old(stack) + [p]
      ensures p.PushVarint? ==> p.v.length == old(p.v.length)
    {
      p.SaveOffset(off);
      off := off + p.ReserveLength();
      stack := stack + [p];
    }

    /** Pops the field and writes it over the space that Push has left for it. */
    method Pop()
      requires stack != []
      requires var p := stack[|stack| - 1];
               p.Object() != raw && p.Start() + p.ReserveLength() <= off <= raw.Length
      modifies `stack, raw
      ensures stack == old(stack[..|stack| - 1])
      ensures var p := old(stack[|stack| - 1]);
              raw[..] == Splice(old(raw[..]), old(p.Start()), old(Filled(p, raw[..], off)))
    {
      hide Splice, Be, Varint;
      var p := stack[|stack| - 1];
      stack := stack[..|stack| - 1];
      var start, cur := p.Start(), off;
      match p {
        case PushLength(_) => WriteAt(start, Be(cur - start - 4, 4));
        case PushVarint(v) => WriteAt(start, Varint(v.length));
        case PushCrc(_) => WriteAt(start, Be(crc(raw[start + 4..cur]), 4));
      }
    }

    function Filled(p: PushEncoder, buf: seq<byte>, cur: nat): (w: seq<byte>)
      requires p.Start() + p.ReserveLength() <= cur <= |buf|
      reads p.Object()
      ensures |w| == p.ReserveLength()
    {
      match p
      case PushLength(_) => Be(cur - p.Start() - 4, 4)
      case PushVarint(v) => Varint(v.length)
      case PushCrc(_) => Be(crc(buf[p.Start() + 4..cur]), 4)
    }

    /** The second pass writes the wire form, moves to its end, and touches nothing else. */
    method Run(s: Script)
      requires Distinct(s) && this !in Fields(s) && raw !in Fields(s) && Primed(s, crc)
      requires off + |WireForm(s, crc)| <= raw.Length
      modifies `off, `stack, raw, Fields(s)
      ensures off == old(off) + |WireForm(s, crc)| && stack == old(stack) && Primed(s, crc)
      ensures raw[..] == Splice(old(raw[..]), old(off), WireForm(s, crc))
      decreases s, 0
    {
      hide ItemBytes, FieldBytes, Splice;
      FieldsAllocated(s);
      match s {
        case Done =>
          SpliceNone(raw[..], off);
        case Put(i, next) =>
          Put(i);
          Run(next);
          SpliceNext(old(raw[..]), old(off), ItemBytes(i), WireForm(next, crc));
        case Nest(field, body, next) =>
          ghost var b := WireForm(body, crc);
          RunNested(field, body);
          Run(next);
          SpliceNext(old(raw[..]), old(off), FieldBytes(field, b, crc) + b, WireForm(next, crc));
      }
    }

    method RunNested(field: Field, body: Script)
      requires Distinct(body) && Owner(field) !! Fields(body)
      requires this !in Owner(field) + Fields(body) && raw !in Owner(field) + Fields(body)
      requires Primed(body, crc)
      requires field.VarintLength? ==> field.f.length == |WireForm(body, crc)|
      requires var b := WireForm(body, crc);
               off + |FieldBytes(field, b, crc) + b| <= raw.Length
      modifies `off, `stack, raw, Owner(field), Fields(body)
      ensures stack == old(stack) && Primed(body, crc)
      ensures field.VarintLength? ==> field.f.length == |WireForm(body, crc)|
      ensures var b := WireForm(body, crc);
              var w := FieldBytes(field, b, crc) + b;
              off == old(off) + |w| && raw[..] == Splice(old(raw[..]), old(off), w)
      decreases body, 1
    {
      hide WireForm, Acceptable, Primed, Fields, Distinct, Varint, Splice, Be;
      FieldsAllocated(body);
      var p := Open(field);
      ghost var b := WireForm(body, crc);
      ghost var w := FieldBytes(field, b, crc);
      Push(p);
      assert off == old(off) + |w|;
      ghost var pushed := stack;
      Run(body);
      assert stack == pushed && stack[|stack| - 1] == p && stack[..|stack| - 1] == old(stack);
      Covered(old(raw[..]), old(off), w, b);
      Pop();
      SpliceBefore(old(raw[..]), old(off), w, b);
    }
  }

  lemma Covered(s: seq<byte>, at: nat, u: seq<byte>, v: seq<byte>)
    requires at + |u| + |v| <= |s|
    ensures Splice(s, at + |u|, v)[at + |u|..at + |u| + |v|] == v
  {}

  const MAX_REQUEST_SIZE := 100 * 1024 * 1024

  /**
    Both passes together. The buffer that the first pass sizes is exactly filled by the second,
    and holds the wire form, whatever earlier encodings have left in the length fields. The only
    errors are an argument that is too long and a packet that is too large.
   */
  method Encode(s: Script, crc: Checksum) returns (r: Option<array<byte>>)
    requires Distinct(s)
    modifies Fields(s)
    ensures r.Some? <==> Acceptable(s) && |WireForm(s, crc)| <= MAX_REQUEST_SIZE
    ensures r.Some? ==> fresh(r.value) && r.value[..] == WireForm(s, crc)
  {
    hide WireForm, Acceptable, Primed, Fields, Distinct;
    FieldsAllocated(s);
    var prep := new PrepEncoder();
    var ok := prep.Run(s, crc);
    if !ok { return None; }
    if prep.length < 0 || prep.length > MAX_REQUEST_SIZE { return None; }
    var raw := new byte[prep.length](_ => 0);
    var writer := new RealEncoder(raw, crc);
    writer.Run(s);
    assert writer.off == raw.Length;
    r := Some(raw);
  }
}
