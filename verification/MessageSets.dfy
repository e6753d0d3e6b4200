/**
  Legacy message sets (magic 0 and 1): blocks of an offset, a length and a checksummed message.
  A broker may cut a set anywhere; the decoder keeps the blocks that are whole.
 */
module MessageSets {
  import opened Wrappers
  import opened Wire
  import opened Encoder
  import opened Decoder
  import opened RecordBatches

  datatype Message = Message(
    version: int,
    codec: int,
    logAppendTime: bool,
    timestamp: int,
    key: Option<seq<byte>>,
    value: Option<seq<byte>>)

  datatype MessageBlock = MessageBlock(offset: int, msg: Message)

  datatype MessageSet = MessageSet(partialTrailingMessage: bool, overflowMessage: bool, messages: seq<MessageBlock>)

  /** Decompressing a wrapped set and decoding it. */
  type Unwrap = (int, seq<byte>) -> Result<seq<byte>>

  const MAGIC_OFFSET := 16

  // ---------------------------------------------------------------- encoding

  function AttributesOf(m: Message): int {
    m.codec % 8 + (if m.logAppendTime then 8 else 0)
  }

  /** Only version 1 writes the timestamp, and only then it must be one that can be written. */
  predicate Dated(m: Message) {
    m.version >= 1 ==> EncodeTime(m.timestamp).Some?
  }

  /** What follows the attributes of a message, before `tail`. */
  function TimedBytes(m: Message, tail: seq<byte>): seq<byte>
    requires Dated(m)
  {
    if m.version >= 1 then Be(EncodeTime(m.timestamp).value, 8) + tail else tail
  }

  /** The bytes that the checksum covers, before `tail`. */
  function CoveredBytes(m: Message, tail: seq<byte>): seq<byte>
    requires Dated(m)
  {
    Be(m.version, 1) +
    (Be(AttributesOf(m), 1) +
     TimedBytes(m, ItemBytes(Bytes(m.key)) + (ItemBytes(Bytes(m.value)) + tail)))
  }

  function MessageBytes(m: Message, crc: Checksum, tail: seq<byte>): seq<byte>
    requires Dated(m)
  {
    Be(crc(CoveredBytes(m, [])), 4) + CoveredBytes(m, tail)
  }

  function BlockSize(b: MessageBlock): nat
    requires Dated(b.msg)
  {
    16 + |CoveredBytes(b.msg, [])|
  }

  function BlockBytes(b: MessageBlock, crc: Checksum, tail: seq<byte>): seq<byte>
    requires Dated(b.msg)
  {
    Be(b.offset, 8) + (Be(BlockSize(b) - 12, 4) + MessageBytes(b.msg, crc, tail))
  }

  predicate Timely(bs: seq<MessageBlock>) {
    forall b :: b in bs ==> Dated(b.msg)
  }

  function SetBytes(bs: seq<MessageBlock>, crc: Checksum): seq<byte>
    requires Timely(bs)
  {
    if bs == [] then [] else BlockBytes(bs[0], crc, SetBytes(bs[1..], crc))
  }

  // ---------------------------------------------------------------- the calls that encode makes

  function MessageScript(m: Message): Script
    requires Dated(m)
  {
    var payload := Put(Bytes(m.key), Put(Bytes(m.value), Done));
    var timed := if m.version >= 1 then Put(Int(EncodeTime(m.timestamp).value, 8), payload) else payload;
    Put(Int(m.version, 1), Put(Int(AttributesOf(m), 1), timed))
  }

  function SetScript(bs: seq<MessageBlock>): Script
    requires Timely(bs)
  {
    if bs == [] then Done
    else
      Put(Int(bs[0].offset, 8),
      Nest(Length32, Nest(Checksum32, MessageScript(bs[0].msg), Done),
      SetScript(bs[1..])))
  }

  predicate MessageFits(m: Message) {
    ItemFits(Bytes(m.key)) && ItemFits(Bytes(m.value))
  }

  lemma MessageWritten(m: Message, crc: Checksum)
    requires Dated(m)
    ensures WireForm(MessageScript(m), crc) == CoveredBytes(m, [])
    ensures Acceptable(MessageScript(m)) <==> MessageFits(m)
    ensures Distinct(MessageScript(m)) && Fields(MessageScript(m)) == {}
  {
    hide Be, EncodeTime;
    var value := Put(Bytes(m.value), Done);
    var payload := Put(Bytes(m.key), value);
    assert WireForm(value, crc) == ItemBytes(Bytes(m.value)) + [];
    assert WireForm(payload, crc) == ItemBytes(Bytes(m.key)) + WireForm(value, crc);
    assert Acceptable(value) <==> ItemFits(Bytes(m.value));
    assert Distinct(value) && Fields(value) == {};
    assert Distinct(payload) && Fields(payload) == {};
    var timed := if m.version >= 1 then Put(Int(EncodeTime(m.timestamp).value, 8), payload) else payload;
    assert WireForm(timed, crc) == TimedBytes(m, WireForm(payload, crc));
    assert Acceptable(timed) <==> Acceptable(payload);
    assert Distinct(timed) && Fields(timed) == {};
    var attributes := Put(Int(AttributesOf(m), 1), timed);
    assert WireForm(attributes, crc) == Be(AttributesOf(m), 1) + WireForm(timed, crc);
    assert Acceptable(attributes) <==> Acceptable(timed);
    assert Distinct(attributes) && Fields(attributes) == {};
  }

  lemma CoveredTail(m: Message, tail: seq<byte>)
    requires Dated(m)
    ensures CoveredBytes(m, tail) == CoveredBytes(m, []) + tail
  {
    hide Be, ItemBytes, EncodeTime;
    var u, v := ItemBytes(Bytes(m.key)), ItemBytes(Bytes(m.value));
    assert u + (v + tail) == u + (v + []) + tail;
    assert TimedBytes(m, u + (v + tail)) == TimedBytes(m, u + (v + [])) + tail;
  }

  lemma BlockTail(b: MessageBlock, crc: Checksum, tail: seq<byte>)
    requires Dated(b.msg)
    ensures BlockBytes(b, crc, tail) == BlockBytes(b, crc, []) + tail
    ensures |BlockBytes(b, crc, [])| == BlockSize(b)
  {
    hide Be, CoveredBytes, EncodeTime;
    CoveredTail(b.msg, tail);
    CoveredTail(b.msg, []);
  }

  lemma BlockWritten(b: MessageBlock, next: Script, crc: Checksum)
    requires Dated(b.msg)
    ensures var body := Nest(Checksum32, MessageScript(b.msg), Done);
            WireForm(Put(Int(b.offset, 8), Nest(Length32, body, next)), crc)
            == BlockBytes(b, crc, WireForm(next, crc))
  {
    hide Be, CoveredBytes, MessageScript, EncodeTime;
    var c := CoveredBytes(b.msg, []);
    var body := Nest(Checksum32, MessageScript(b.msg), Done);
    MessageWritten(b.msg, crc);
    assert WireForm(body, crc) == Be(crc(c), 4) + c + [] == Be(crc(c), 4) + c;
    var rest := WireForm(next, crc);
    assert WireForm(Nest(Length32, body, next), crc) == Be(4 + |c|, 4) + (Be(crc(c), 4) + c) + rest;
    CoveredTail(b.msg, rest);
    Assoc(Be(4 + |c|, 4), Be(crc(c), 4), c, rest);
  }

  lemma Assoc(u: seq<byte>, v: seq<byte>, c: seq<byte>, rest: seq<byte>)
    ensures u + (v + c) + rest == u + (v + (c + rest))
  {}

  lemma BlockShape(b: MessageBlock, next: Script, crc: Checksum)
    requires Dated(b.msg)
    requires Distinct(next) && Fields(next) == {}
    ensures var s := Put(Int(b.offset, 8), Nest(Length32, Nest(Checksum32, MessageScript(b.msg), Done), next));
            && (Acceptable(s) <==> MessageFits(b.msg) && Acceptable(next))
            && Distinct(s) && Fields(s) == {}
  {
    hide MessageScript, EncodeTime, WireForm, MessageFits, CoveredBytes;
    MessageWritten(b.msg, crc);
    var body := Nest(Checksum32, MessageScript(b.msg), Done);
    assert Acceptable(Done) && Distinct(Done) && Fields(Done) == {};
    assert Acceptable(body) <==> MessageFits(b.msg);
    assert Fields(body) == {} && Distinct(body);
    var length := Nest(Length32, body, next);
    assert Acceptable(length) <==> MessageFits(b.msg) && Acceptable(next);
    assert Fields(length) == {} && Distinct(length);
  }

  lemma {:induction false} SetWritten(bs: seq<MessageBlock>, crc: Checksum)
    requires Timely(bs)
    ensures WireForm(SetScript(bs), crc) == SetBytes(bs, crc)
    ensures Acceptable(SetScript(bs)) <==> forall b :: b in bs ==> MessageFits(b.msg)
    ensures Distinct(SetScript(bs)) && Fields(SetScript(bs)) == {}
  {
    if bs != [] {
      hide WireForm, Acceptable, Distinct, Fields, BlockBytes, MessageScript, MessageFits, EncodeTime;
      SetWritten(bs[1..], crc);
      BlockWritten(bs[0], SetScript(bs[1..]), crc);
      BlockShape(bs[0], SetScript(bs[1..]), crc);
      assert forall x :: x in bs <==> x == bs[0] || x in bs[1..];
    }
  }

  /** The encoder writes the wire form, or fails because it is too long. */
  method EncodeSet(bs: seq<MessageBlock>, crc: Checksum) returns (r: Option<array<byte>>)
    ensures r.Some? <==>
            && Timely(bs) && (forall b :: b in bs ==> MessageFits(b.msg))
            && |SetBytes(bs, crc)| <= MAX_REQUEST_SIZE
    ensures r.Some? ==> r.value[..] == SetBytes(bs, crc)
  {
    hide SetBytes, SetScript, EncodeTime, MessageFits, WireForm, Acceptable, Distinct, Fields;
    if exists b :: b in bs && !Dated(b.msg) { return None; }
    SetWritten(bs, crc);
    r := Encode(SetScript(bs), crc);
  }

  // ---------------------------------------------------------------- decoding

  /** The message after its checksum. */
  function ParseCovered(s: seq<byte>, unwrap: Unwrap): (r: Read<Message>)
    ensures r.Ok? ==> |r.value.1| < |s|
  {
    var (version, s1) :- GetInt(s, 1);
    if version > 1 then Err(UnknownMagic)
    else
      var (attributes, s2) :- GetInt(s1, 1);
      var (millis, s3) :- if version == 1 then GetInt(s2, 8) else Ok((-1, s2));
      var (key, s4) :- GetBytes(s3);
      var (data, s5) :- GetBytes(s4);
      var codec := attributes % 8;
      var value :- if codec == COMPRESSION_NONE || data.None? then Ok(data)
                   else Unwrapped(unwrap(codec, data.value));
      Ok((Message(version, codec, attributes / 8 % 2 == 1, DecodeTime(millis), key, value), s5))
  }

  function Unwrapped(r: Result<seq<byte>>): Result<Option<seq<byte>>> {
    match r
    case Ok(v) => Ok(Some(v))
    case Err(e) => Err(e)
  }

  function ParseMessage(s: seq<byte>, unwrap: Unwrap, crc: Checksum): (r: Read<Message>)
    ensures r.Ok? ==> |r.value.1| < |s|
  {
    var (_, s1) :- Skip(s, 4);
    var (m, s2) :- ParseCovered(s1, unwrap);
    var _ :- Check(KindCrc, 0, s[..|s| - |s2|], crc);
    Ok((m, s2))
  }

  function ParseBlock(s: seq<byte>, unwrap: Unwrap, crc: Checksum): (r: Read<MessageBlock>)
    ensures r.Ok? ==> |r.value.1| < |s|
  {
    var (offset, s1) :- GetInt(s, 8);
    var (length, s2) :- GetLength32(s1);
    var (m, s3) :- ParseMessage(s2, unwrap, crc);
    var _ :- Check(KindLength, length, s1[..|s1| - |s3|], crc);
    Ok((MessageBlock(offset, m), s3))
  }

  /** Decodes what follows the blocks already read, up to the first block of a later format. */
  function ParseSet(done: seq<MessageBlock>, s: seq<byte>, unwrap: Unwrap, crc: Checksum): (r: Read<MessageSet>)
    ensures r.Ok? ==> |r.value.1| <= |s|
    ensures r.Ok? && s != [] && (|s| <= MAGIC_OFFSET || Signed([s[MAGIC_OFFSET]]) <= 1) ==> |r.value.1| < |s|
    decreases |s|
  {
    if s == [] then Ok((MessageSet(false, false, done), []))
    else if |s| < MAGIC_OFFSET + 1 then Ok((MessageSet(true, false, done), []))
    else if Signed([s[MAGIC_OFFSET]]) > 1 then Ok((MessageSet(false, false, done), s))
    else
      match ParseBlock(s, unwrap, crc)
      case Ok(p) => ParseSet(done + [p.0], p.1, unwrap, crc)
      case Err(InsufficientData) =>
        if Signed(s[..8]) == -1 then Ok((MessageSet(false, true, done), []))
        else Ok((MessageSet(true, false, done), []))
      case Err(e) => Err(e)
  }

  // ---------------------------------------------------------------- whole blocks come back

  /** Within the integer types, and neither compressed nor of a later format. */
  predicate PlainMessage(m: Message) {
    && Fits(m.version, 1) && m.version <= 1
    && m.codec == COMPRESSION_NONE && MessageFits(m)
    && Dated(m) && (m.version >= 1 ==> TypedTime(m.timestamp))
  }

  predicate Plain(b: MessageBlock) {
    Fits(b.offset, 8) && PlainMessage(b.msg)
  }

  /** Version 0 has no timestamp, and version 1 keeps it to the millisecond. */
  function KeptMessage(m: Message): Message {
    m.(timestamp := if m.version == 1 then RoundedTime(m.timestamp) else ZERO_TIME)
  }

  function Kept(b: MessageBlock): MessageBlock {
    MessageBlock(b.offset, KeptMessage(b.msg))
  }

  /** What the decoder returns can be encoded, and then comes back unchanged. */
  lemma KeptAgain(b: MessageBlock)
    requires Plain(b)
    ensures Plain(Kept(b)) && Kept(Kept(b)) == Kept(b)
  {
    hide Fits, EncodeTime, RoundedTime, TypedTime, ItemFits;
    if b.msg.version == 1 {
      RoundedAgain(b.msg.timestamp);
    }
  }

  lemma RoundedAgain(t: int)
    requires TypedTime(t) && EncodeTime(t).Some?
    ensures var r := RoundedTime(t);
            TypedTime(r) && EncodeTime(r).Some? && RoundedTime(r) == r
  {
    hide Fits;
    if t != ZERO_TIME {
      FitsRange(t);
      FitsRange(RoundedTime(t));
    }
  }

  lemma CoveredBack(m: Message, unwrap: Unwrap, rest: seq<byte>)
    requires PlainMessage(m)
    ensures ParseCovered(CoveredBytes(m, rest), unwrap) == Ok((KeptMessage(m), rest))
  {
    hide GetInt, GetBytes, Be, ItemFits, Fits, EncodeTime, DecodeTime, RoundedTime, AttributesOf;
    var s4 := ItemBytes(Bytes(m.value)) + rest;
    var s3 := ItemBytes(Bytes(m.key)) + s4;
    var s2 := TimedBytes(m, s3);
    var s1 := Be(AttributesOf(m), 1) + s2;
    IntBack(m.version, 1, s1);
    AttributeBits(m);
    IntBack(AttributesOf(m), 1, s2);
    if m.version >= 1 {
      TimeBack(m.timestamp);
      IntBack(EncodeTime(m.timestamp).value, 8, s3);
    }
    BytesBack(m.key, s4);
    BytesBack(m.value, rest);
    assert DecodeTime(-1) == ZERO_TIME by {
      NegativeIsZero();
    }
  }

  lemma NegativeIsZero()
    ensures DecodeTime(-1) == ZERO_TIME
  {}

  lemma AttributeBits(m: Message)
    requires m.codec == COMPRESSION_NONE
    ensures var a := AttributesOf(m);
            Fits(a, 1) && a % 8 == COMPRESSION_NONE && (a / 8 % 2 == 1) == m.logAppendTime
  {}

  lemma MessageBack(m: Message, unwrap: Unwrap, crc: Checksum, rest: seq<byte>)
    requires PlainMessage(m)
    ensures ParseMessage(MessageBytes(m, crc, rest), unwrap, crc) == Ok((KeptMessage(m), rest))
  {
    hide ParseCovered, CoveredBytes, Be, EncodeTime, Fits, MessageFits, KeptMessage;
    var c := CoveredBytes(m, []);
    var s := MessageBytes(m, crc, rest);
    CoveredTail(m, rest);
    assert s[4..] == CoveredBytes(m, rest);
    CoveredBack(m, unwrap, rest);
    assert s[..|s| - |rest|] == Be(crc(c), 4) + c;
    assert (Be(crc(c), 4) + c)[..4] == Be(crc(c), 4) && (Be(crc(c), 4) + c)[4..] == c;
  }

  lemma LengthBack(n: nat, rest: seq<byte>)
    requires n <= MAX_INT32 && |rest| <= MAX_INT32
    ensures GetLength32(Be(n, 4) + rest) == if n > |rest| then Err(InsufficientData) else Ok((n, rest))
  {
    hide GetInt, Be, Fits;
    FitsRange(n);
    IntBack(n, 4, rest);
  }

  lemma BlockBack(b: MessageBlock, unwrap: Unwrap, crc: Checksum, rest: seq<byte>)
    requires Plain(b) && |BlockBytes(b, crc, rest)| <= MAX_INT32
    ensures ParseBlock(BlockBytes(b, crc, rest), unwrap, crc) == Ok((Kept(b), rest))
  {
    hide GetInt, GetLength32, ParseMessage, Be, EncodeTime, Fits, MessageFits, CoveredBytes, KeptMessage;
    var m := b.msg;
    var s2 := MessageBytes(m, crc, rest);
    var s1 := Be(BlockSize(b) - 12, 4) + s2;
    CoveredTail(m, rest);
    IntBack(b.offset, 8, s1);
    LengthBack(BlockSize(b) - 12, s2);
    MessageBack(m, unwrap, crc, rest);
  }

  /** The magic byte is where the decoder looks for it. */
  lemma MagicInPlace(b: MessageBlock, crc: Checksum, s: seq<byte>)
    requires Plain(b) && MAGIC_OFFSET < |s| && s <= BlockBytes(b, crc, [])
    ensures Signed([s[MAGIC_OFFSET]]) <= 1
  {
    hide EncodeTime, MessageFits, TimedBytes, ItemBytes;
    var whole := BlockBytes(b, crc, []);
    var head := Be(b.offset, 8) + Be(BlockSize(b) - 12, 4) + Be(crc(CoveredBytes(b.msg, [])), 4);
    assert whole == head + CoveredBytes(b.msg, []);
    assert Be(b.msg.version, 1) == [s[MAGIC_OFFSET]];
    SignedBe(b.msg.version, 1);
  }

  // ---------------------------------------------------------------- truncation

  function SetSize(bs: seq<MessageBlock>): nat
    requires Timely(bs)
  {
    if bs == [] then 0 else BlockSize(bs[0]) + SetSize(bs[1..])
  }

  function KeptAll(bs: seq<MessageBlock>): (r: seq<MessageBlock>)
    ensures |r| == |bs| && forall i :: 0 <= i < |bs| ==> r[i] == Kept(bs[i])
  {
    if bs == [] then [] else [Kept(bs[0])] + KeptAll(bs[1..])
  }

  /** How many blocks lie wholly within the first n bytes. */
  function WholeBlocks(bs: seq<MessageBlock>, n: nat): (k: nat)
    requires Timely(bs)
    ensures k <= |bs|
  {
    if bs == [] || n < BlockSize(bs[0]) then 0 else 1 + WholeBlocks(bs[1..], n - BlockSize(bs[0]))
  }

  lemma {:induction false} WholeBlocksFit(bs: seq<MessageBlock>, n: nat)
    requires Timely(bs) && n <= SetSize(bs)
    ensures var k := WholeBlocks(bs, n);
            && SetSize(bs[..k]) <= n
            && (k < |bs| ==> n < SetSize(bs[..k + 1]))
            && (k == |bs| ==> n == SetSize(bs))
  {
    hide EncodeTime, BlockSize;
    if bs != [] && n >= BlockSize(bs[0]) {
      WholeBlocksFit(bs[1..], n - BlockSize(bs[0]));
      var k := WholeBlocks(bs, n);
      assert bs[..k][1..] == bs[1..][..k - 1];
      if k < |bs| {
        assert bs[..k + 1][1..] == bs[1..][..k];
      }
      assert bs[..|bs|] == bs;
    } else if bs != [] {
      assert bs[..1] == [bs[0]];
      assert SetSize([bs[0]]) == BlockSize(bs[0]) + SetSize([]);
    }
  }

  lemma {:induction false} SetLength(bs: seq<MessageBlock>, crc: Checksum)
    requires Timely(bs)
    ensures |SetBytes(bs, crc)| == SetSize(bs)
  {
    if bs != [] {
      hide BlockSize, BlockBytes, EncodeTime;
      BlockTail(bs[0], crc, SetBytes(bs[1..], crc));
      SetLength(bs[1..], crc);
    }
  }

  /** Of a block that is cut, the decoder notices that bytes are missing, and knows its offset. */
  lemma CutBlock(b: MessageBlock, unwrap: Unwrap, crc: Checksum, n: nat)
    requires Plain(b) && MAGIC_OFFSET < n < BlockSize(b) <= MAX_INT32
    ensures |BlockBytes(b, crc, [])| == BlockSize(b)
    ensures var s := BlockBytes(b, crc, [])[..n];
            Signed(s[..8]) == b.offset && ParseBlock(s, unwrap, crc) == Err(InsufficientData)
  {
    hide GetInt, GetLength32, ParseMessage, Be, EncodeTime, Fits, MessageFits, CoveredBytes, Signed, MessageBytes,
      BlockSize;
    BlockTail(b, crc, []);
    var s := BlockBytes(b, crc, [])[..n];
    var s2 := MessageBytes(b.msg, crc, [])[..n - 12];
    var s1 := Be(BlockSize(b) - 12, 4) + s2;
    PrefixOf(Be(b.offset, 8), Be(BlockSize(b) - 12, 4), MessageBytes(b.msg, crc, []), n);
    IntBack(b.offset, 8, s1);
    LengthBack(BlockSize(b) - 12, s2);
    SignedBe(b.offset, 8);
  }

  lemma PrefixOf(u: seq<byte>, v: seq<byte>, w: seq<byte>, n: nat)
    requires |u| == 8 && |v| == 4 && 12 <= n <= 12 + |w|
    ensures (u + (v + w))[..n] == u + (v + w[..n - 12])
    ensures (u + (v + w))[..n][..8] == u
  {}

  ghost predicate AllPlain(bs: seq<MessageBlock>) {
    forall b :: b in bs ==> Plain(b)
  }

  /** k whole blocks, and some bytes of the next. */
  function Outcome(done: seq<MessageBlock>, bs: seq<MessageBlock>, k: nat, left: int): MessageSet
    requires k <= |bs|
  {
    var overflow := left > MAGIC_OFFSET && k < |bs| && bs[k].offset == -1;
    MessageSet(left > 0 && !overflow, overflow, done + KeptAll(bs[..k]))
  }

  /** What the decoder makes of the first n bytes of a set. */
  function Truncated(done: seq<MessageBlock>, bs: seq<MessageBlock>, n: nat): MessageSet
    requires Timely(bs)
  {
    var k := WholeBlocks(bs, n);
    Outcome(done, bs, k, n - SetSize(bs[..k]))
  }

  lemma WholeStep(bs: seq<MessageBlock>, n: nat)
    requires Timely(bs) && bs != [] && n >= BlockSize(bs[0])
    ensures var k, j := WholeBlocks(bs, n), WholeBlocks(bs[1..], n - BlockSize(bs[0]));
            && k == j + 1
            && SetSize(bs[..k]) == BlockSize(bs[0]) + SetSize(bs[1..][..j])
            && KeptAll(bs[..k]) == [Kept(bs[0])] + KeptAll(bs[1..][..j])
  {
    hide EncodeTime, BlockSize, Kept;
    var j := WholeBlocks(bs[1..], n - BlockSize(bs[0]));
    assert bs[..j + 1][1..] == bs[1..][..j] && bs[..j + 1][0] == bs[0];
  }

  lemma TruncatedStep(done: seq<MessageBlock>, bs: seq<MessageBlock>, n: nat)
    requires Timely(bs) && bs != [] && n >= BlockSize(bs[0])
    ensures Truncated(done, bs, n) == Truncated(done + [Kept(bs[0])], bs[1..], n - BlockSize(bs[0]))
  {
    hide EncodeTime, BlockSize, Kept, SetSize, WholeBlocks, KeptAll;
    WholeStep(bs, n);
    var j := WholeBlocks(bs[1..], n - BlockSize(bs[0]));
    assert done + ([Kept(bs[0])] + KeptAll(bs[1..][..j])) == done + [Kept(bs[0])] + KeptAll(bs[1..][..j]);
  }

  lemma {:induction false} TruncationFrom(done: seq<MessageBlock>, bs: seq<MessageBlock>, unwrap: Unwrap,
                                          crc: Checksum, n: nat)
    requires Timely(bs) && AllPlain(bs) && n <= SetSize(bs) <= MAX_INT32
    ensures |SetBytes(bs, crc)| == SetSize(bs)
    ensures ParseSet(done, SetBytes(bs, crc)[..n], unwrap, crc) == Ok((Truncated(done, bs, n), []))
    decreases |bs|
  {
    hide ParseBlock, BlockBytes, BlockSize, Plain, EncodeTime, Kept, Signed;
    SetLength(bs, crc);
    var s := SetBytes(bs, crc)[..n];
    if bs == [] {
      assert s == [];
      assert done + KeptAll(bs[..0]) == done;
    } else {
      var b, rest := bs[0], SetBytes(bs[1..], crc);
      assert Plain(b);
      SetLength(bs[1..], crc);
      BlockTail(b, crc, rest);
      if n < BlockSize(b) {
        assert s == BlockBytes(b, crc, [])[..n];
        TruncatedHere(done, bs, n);
        if n > MAGIC_OFFSET {
          MagicInPlace(b, crc, s);
          CutBlock(b, unwrap, crc, n);
        }
      } else {
        var left := rest[..n - BlockSize(b)];
        BlockTail(b, crc, left);
        assert s == BlockBytes(b, crc, left);
        BlockLong(b);
        assert s[..BlockSize(b)] == BlockBytes(b, crc, []);
        MagicInPlace(b, crc, s[..BlockSize(b)]);
        BlockBack(b, unwrap, crc, left);
        TruncationFrom(done + [Kept(b)], bs[1..], unwrap, crc, n - BlockSize(b));
        TruncatedStep(done, bs, n);
      }
    }
  }

  lemma BlockLong(b: MessageBlock)
    requires Dated(b.msg)
    ensures BlockSize(b) > MAGIC_OFFSET
  {}

  lemma TruncatedHere(done: seq<MessageBlock>, bs: seq<MessageBlock>, n: nat)
    requires Timely(bs) && bs != [] && n < BlockSize(bs[0])
    ensures Truncated(done, bs, n) ==
            var overflow := n > MAGIC_OFFSET && bs[0].offset == -1;
            MessageSet(n > 0 && !overflow, overflow, done)
  {
    assert done + KeptAll(bs[..0]) == done;
  }

  /**
    Any prefix of an encoded set decodes to exactly the blocks that lie wholly within it. When no
    block has the offset -1, the partial flag is set if and only if the cut is not at the end of a
    block; a cut block with that offset is reported as an overflow message once its magic byte is there.
   */
  lemma Truncation(bs: seq<MessageBlock>, unwrap: Unwrap, crc: Checksum, n: nat)
    requires Timely(bs) && AllPlain(bs) && n <= |SetBytes(bs, crc)| <= MAX_INT32
    ensures var r := ParseSet([], SetBytes(bs, crc)[..n], unwrap, crc);
            var k := WholeBlocks(bs, n);
            && r.Ok? && r.value.0.messages == KeptAll(bs[..k])
            && SetSize(bs[..k]) <= n && (k < |bs| ==> n < SetSize(bs[..k + 1]))
            && (r.value.0.partialTrailingMessage || r.value.0.overflowMessage <==> n != SetSize(bs[..k]))
            && (r.value.0.overflowMessage <==>
                  n > SetSize(bs[..k]) + MAGIC_OFFSET && k < |bs| && bs[k].offset == -1)
            && !(r.value.0.partialTrailingMessage && r.value.0.overflowMessage)
  {
    hide ParseSet, SetBytes, SetSize, WholeBlocks, EncodeTime, Plain, KeptAll;
    SetLength(bs, crc);
    TruncationFrom([], bs, unwrap, crc, n);
    WholeBlocksFit(bs, n);
    var k := WholeBlocks(bs, n);
    assert [] + KeptAll(bs[..k]) == KeptAll(bs[..k]);
  }

  // ---------------------------------------------------------------- the decode methods

  method DecodeCovered(rd: RealDecoder, unwrap: Unwrap) returns (r: Result<Message>)
    requires rd.Valid()
    modifies rd`off
    ensures rd.Valid() && Agrees(r, rd.Rest(), ParseCovered(old(rd.Rest()), unwrap))
  {
    hide GetInt, GetBytes, DecodeTime;
    var version :- rd.ReadInt(1);
    if version > 1 { return Err(UnknownMagic); }
    var attributes :- rd.ReadInt(1);
    var millis := -1;
    if version == 1 {
      millis :- rd.ReadInt(8);
    }
    var key :- rd.ReadBytes();
    var value :- rd.ReadBytes();
    var codec := attributes % 8;
    if codec != COMPRESSION_NONE && value.Some? {
      var inner :- unwrap(codec, value.value);
      value := Some(inner);
    }
    r := Ok(Message(version, codec, attributes / 8 % 2 == 1, DecodeTime(millis), key, value));
  }

  method DecodeMessage(rd: RealDecoder, unwrap: Unwrap, crc: Checksum) returns (r: Result<Message>)
    requires rd.Valid()
    modifies rd
    ensures rd.Valid() && Agrees(r, rd.Rest(), ParseMessage(old(rd.Rest()), unwrap, crc))
    ensures r.Ok? ==> rd.stack == old(rd.stack)
  {
    hide ParseCovered, Be, Check;
    var sum := new Crc32Field();
    ghost var s := rd.Rest();
    var _ :- rd.Push(PullCrc(sum, crc));
    var m :- DecodeCovered(rd, unwrap);
    assert rd.raw[sum.startOffset..rd.off] == s[..|s| - |rd.Rest()|];
    assert rd.stack[|rd.stack| - 1] == PullCrc(sum, crc);
    var _ :- rd.Pop(crc);
    r := Ok(m);
  }

  /** The block's offset is known to the caller even when the rest of the block is not there. */
  method DecodeBlock(rd: RealDecoder, unwrap: Unwrap, crc: Checksum) returns (r: Result<MessageBlock>, offset: int)
    requires rd.Valid()
    modifies rd
    ensures rd.Valid() && Agrees(r, rd.Rest(), ParseBlock(old(rd.Rest()), unwrap, crc))
    ensures |old(rd.Rest())| >= 8 ==> offset == Signed(old(rd.Rest())[..8])
  {
    hide GetLength32, ParseMessage, Check;
    offset := 0;
    var first := rd.ReadInt(8);
    if first.Err? { return Err(first.error), offset; }
    offset := first.value;
    var length := new LengthField();
    ghost var s1 := rd.Rest();
    var pushed := rd.Push(PullLength(length));
    if pushed.Err? { return Err(pushed.error), offset; }
    var m := DecodeMessage(rd, unwrap, crc);
    if m.Err? { return Err(m.error), offset; }
    assert rd.raw[length.startOffset..rd.off] == s1[..|s1| - |rd.Rest()|];
    assert rd.stack[|rd.stack| - 1] == PullLength(length);
    var popped := rd.Pop(crc);
    if popped.Err? { return Err(popped.error), offset; }
    r := Ok(MessageBlock(offset, m.value));
  }

  /** A set that is neither cut nor overflowing leaves the decoder just behind it. */
  method DecodeSet(rd: RealDecoder, unwrap: Unwrap, crc: Checksum) returns (r: Result<MessageSet>)
    requires rd.Valid()
    modifies rd
    ensures rd.Valid()
    ensures match ParseSet([], old(rd.Rest()), unwrap, crc)
            case Err(e) => r == Err(e)
            case Ok(p) =>
              && r == Ok(p.0)
              && (!p.0.partialTrailingMessage && !p.0.overflowMessage ==> rd.Rest() == p.1)
  {
    hide ParseBlock;
    var messages := [];
    ghost var spec := ParseSet([], rd.Rest(), unwrap, crc);
    while rd.Remaining() > 0
      invariant rd.Valid()
      invariant spec == ParseSet(messages, rd.Rest(), unwrap, crc)
      decreases |rd.Rest()|
    {
      var magic := rd.PeekInt8(MAGIC_OFFSET);
      if magic.Err? { return Ok(MessageSet(true, false, messages)); }
      if magic.value > 1 { return Ok(MessageSet(false, false, messages)); }
      var block, offset := DecodeBlock(rd, unwrap, crc);
      match block {
        case Ok(b) =>
          messages := messages + [b];
        case Err(InsufficientData) =>
          if offset == -1 { return Ok(MessageSet(false, true, messages)); }
          return Ok(MessageSet(true, false, messages));
        case Err(e) => return Err(e);
      }
    }
    r := Ok(MessageSet(false, false, messages));
  }
}
