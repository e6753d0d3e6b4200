/**
  Where every field is on the wire. Round trips alone would not notice if writer and reader swapped two
  fields of one width or the order of bytes; here positions, byte order and examples are stated outright.
 */
module Layouts {
  import opened Wrappers
  import opened Wire
  import opened Encoder
  import opened RecordBatches
  import opened BatchCodec
  import opened MessageSets
  import M = MySqlPackets

  // ---------------------------------------------------------------- byte order

  /** A number without its n lowest digits. */
  function Drop(v: int, base: nat, n: nat): int
    requires base > 0
    decreases n
  {
    if n == 0 then v else Drop(v / base, base, n - 1)
  }

  /** Fixed-width integers have their most significant byte first. */
  lemma {:induction false} BigEndianAt(v: int, width: nat, i: nat)
    requires i < width
    ensures Be(v, width)[i] == Drop(v, 256, width - 1 - i) % 256
    decreases width
  {
    if i < width - 1 {
      BigEndianAt(v / 256, width - 1, i);
    }
  }

  /** Varints have their lowest seven bits first, and a high bit on every byte but the last. */
  lemma {:induction false} UvarintAt(n: nat, i: nat)
    requires i < |Uvarint(n)|
    ensures Uvarint(n)[i] == Drop(n, 128, i) % 128 + if i < |Uvarint(n)| - 1 then 128 else 0
    decreases n
  {
    if n >= 128 && i > 0 {
      UvarintAt(n / 128, i - 1);
    }
  }

  /** Zigzag puts the sign in the lowest bit, so that small numbers of either sign stay small. */
  lemma ZigZagSign(v: int)
    ensures ZigZag(v) % 2 == (if v < 0 then 1 else 0)
    ensures ZigZag(v) / 2 == (if v < 0 then -1 - v else v)
  {}

  /** MySQL's integers have their least significant byte first. */
  lemma {:induction false} LittleEndianAt(v: int, width: nat, i: nat)
    requires i < width
    ensures M.LittleEndian(v, width)[i] == Drop(v, 256, i) % 256
    decreases width
  {
    if i > 0 {
      LittleEndianAt(v / 256, width - 1, i - 1);
    }
  }

  /** A packet header: three bytes of length, and the sequence number. */
  lemma HeaderLayout(n: nat, sequence: byte)
    ensures M.Header(n, sequence) == M.LittleEndian(n, 3) + [sequence]
  {
    assert M.LittleEndian(n, 3) == [n % 256] + ([n / 256 % 256] + ([n / 256 / 256 % 256] + [])) by {
      assert M.LittleEndian(n / 256 / 256 / 256, 0) == [];
      assert M.LittleEndian(n / 256 / 256, 1) == [n / 256 / 256 % 256] + [];
      assert M.LittleEndian(n / 256, 2) == [n / 256 % 256] + M.LittleEndian(n / 256 / 256, 1);
    }
  }

  /** A command for long data: 0x18, four bytes of statement, two of parameter, and the bytes. */
  lemma CommandLayout(statement: int, param: int, piece: seq<byte>)
    ensures var c := M.Command(statement, param, piece);
            c[0] == 0x18 && c[1..5] == M.LittleEndian(statement, 4) && c[5..7] == M.LittleEndian(param, 2) && c[7..] == piece
  {}

  // ---------------------------------------------------------------- record batches

  /** The codec in the lowest three bits, then the source of the times, transactions and control batches. */
  function AttributeNumber(b: RecordBatch): int {
    b.codec + (if b.logAppendTime then 8 else 0) + (if b.isTransactional then 16 else 0) + (if b.control then 32 else 0)
  }

  /** Milliseconds since 1970, and -1 for the zero time. */
  function Millis(t: int): int {
    if t == ZERO_TIME then -1 else t / 1_000_000
  }

  lemma NumbersAre(b: RecordBatch)
    requires TypedBatch(b)
    ensures ComputeAttributes(b) == AttributeNumber(b)
  {}

  lemma MillisAre(t: int)
    requires EncodeTime(t).Some?
    ensures EncodeTime(t).value == Millis(t)
  {}

  /** A batch with its checksum and payload, field by field at its place, and then the rest. */
  predicate LaidOut(e: seq<byte>, b: RecordBatch, payload: seq<byte>, crc: Checksum, rest: seq<byte>) {
    var n := |payload|;
    && |e| == 61 + n + |rest| && e[61..61 + n] == payload && e[61 + n..] == rest
    && Signed(e[..8]) == b.firstOffset && Signed(e[8..12]) == 49 + n
    && Signed(e[12..16]) == b.partitionLeaderEpoch && Signed(e[16..17]) == 2
    && e[17..21] == Be(crc(e[21..61 + n]), 4) && Signed(e[21..23]) == AttributeNumber(b)
    && Signed(e[23..27]) == b.lastOffsetDelta
    && Signed(e[27..35]) == Millis(b.firstTimestamp) && Signed(e[35..43]) == Millis(b.maxTimestamp)
    && Signed(e[43..51]) == b.producerId && Signed(e[51..53]) == b.producerEpoch
    && Signed(e[53..57]) == b.firstSequence && Signed(e[57..61]) == |b.records|
  }

  /** Every field of an encoded batch, read at its place. */
  lemma BatchLayout(b: RecordBatch, z: Codecs, crc: Checksum, rest: seq<byte>)
    requires TypedBatch(b) && Encodable(b, z)
    ensures LaidOut(Encoded(b, z, crc, rest), b, Compress(z, b.codec, RecordsBytes(b.records)).value, crc, rest)
  {
    hide Fits, Be, Signed, RecordsBytes, Compress, EncodeTime, Typed, RecordFits, ComputeAttributes, TypedTime,
      AttributeNumber, Millis;
    var e := Encoded(b, z, crc, rest);
    var payload := Compress(z, b.codec, RecordsBytes(b.records)).value;
    var f := FieldsOf(b);
    HeadLayout(b, payload, crc, rest);
    FieldsLayout(f, payload + rest);
    FieldsLayout(f, payload);
    var g := FieldsBytes(f, payload + rest);
    assert e[21..] == g;
    Shifted(e, 21, g, 0, 2);
    Shifted(e, 21, g, 2, 6);
    Shifted(e, 21, g, 6, 14);
    Shifted(e, 21, g, 14, 22);
    Shifted(e, 21, g, 22, 30);
    Shifted(e, 21, g, 30, 32);
    Shifted(e, 21, g, 32, 36);
    Shifted(e, 21, g, 36, 40);
    Shifted(e, 21, g, 0, 40 + |payload|);
    Shifted(e, 21, g, 40, 40 + |payload|);
    assert g[40..] == payload + rest;
    assert g[40..40 + |payload|] == payload && e[61 + |payload|..] == rest by {
      Tails(e, g, payload, rest);
    }
    assert g[..40 + |payload|] == FieldsBytes(f, payload) by {
      FieldsTail(f, payload, rest);
    }
    BatchNumbers(b, z);
    NumbersAre(b);
    MillisAre(b.firstTimestamp);
    MillisAre(b.maxTimestamp);
  }

  /** The fields are within their types, so that the bytes give them back. */
  lemma BatchNumbers(b: RecordBatch, z: Codecs)
    requires TypedBatch(b) && Encodable(b, z)
    ensures var n := |Compress(z, b.codec, RecordsBytes(b.records)).value|;
            && Signed(Be(b.firstOffset, 8)) == b.firstOffset && Signed(Be(49 + n, 4)) == 49 + n
            && Signed(Be(b.partitionLeaderEpoch, 4)) == b.partitionLeaderEpoch && Signed(Be(b.version, 1)) == 2
            && Signed(Be(b.lastOffsetDelta, 4)) == b.lastOffsetDelta
            && Signed(Be(ComputeAttributes(b), 2)) == ComputeAttributes(b)
            && Signed(Be(EncodeTime(b.firstTimestamp).value, 8)) == EncodeTime(b.firstTimestamp).value
            && Signed(Be(EncodeTime(b.maxTimestamp).value, 8)) == EncodeTime(b.maxTimestamp).value
            && Signed(Be(b.producerId, 8)) == b.producerId && Signed(Be(b.producerEpoch, 2)) == b.producerEpoch
            && Signed(Be(b.firstSequence, 4)) == b.firstSequence && Signed(Be(|b.records|, 4)) == |b.records|
  {
    hide Fits, Be, Signed, RecordsBytes, Compress, EncodeTime, Typed, RecordFits, TypedTime, ComputeAttributes;
    AttributesBack(b);
    SignedBe(ComputeAttributes(b), 2);
    var n := |Compress(z, b.codec, RecordsBytes(b.records)).value|;
    TimeBack(b.firstTimestamp);
    TimeBack(b.maxTimestamp);
    FitsRange(49 + n);
    FitsRange(|b.records|);
    FitsTwo();
    SignedBe(b.firstOffset, 8);
    SignedBe(49 + n, 4);
    SignedBe(b.partitionLeaderEpoch, 4);
    SignedBe(2, 1);
    SignedBe(b.lastOffsetDelta, 4);
    SignedBe(EncodeTime(b.firstTimestamp).value, 8);
    SignedBe(EncodeTime(b.maxTimestamp).value, 8);
    SignedBe(b.producerId, 8);
    SignedBe(b.producerEpoch, 2);
    SignedBe(b.firstSequence, 4);
    SignedBe(|b.records|, 4);
  }

  lemma FitsTwo()
    ensures Fits(2, 1)
  {}

  lemma Shifted(e: seq<byte>, at: nat, g: seq<byte>, i: nat, j: nat)
    requires at <= |e| && e[at..] == g && i <= j <= |g|
    ensures e[at + i..at + j] == g[i..j]
  {
    assert e[at + i..at + j] == e[at..][i..j];
  }

  lemma Tails(e: seq<byte>, g: seq<byte>, payload: seq<byte>, rest: seq<byte>)
    requires |e| >= 21 && e[21..] == g && |g| == 40 + |payload| + |rest| && g[40..] == payload + rest
    ensures g[40..40 + |payload|] == payload && e[61 + |payload|..] == rest
  {
    assert g[40..40 + |payload|] == g[40..][..|payload|];
    assert e[61 + |payload|..] == e[21..][40..][|payload|..];
  }

  lemma HeadLayout(b: RecordBatch, payload: seq<byte>, crc: Checksum, rest: seq<byte>)
    requires EncodeTime(b.firstTimestamp).Some? && EncodeTime(b.maxTimestamp).Some?
    ensures var e := BatchBytes(b, payload, crc, rest);
            && |e| >= 21 && e[..8] == Be(b.firstOffset, 8) && e[8..12] == Be(RECORD_BATCH_OVERHEAD + |payload|, 4)
            && e[12..16] == Be(b.partitionLeaderEpoch, 4) && e[16..17] == Be(b.version, 1)
            && e[17..21] == Be(crc(FieldsBytes(FieldsOf(b), payload)), 4)
            && e[21..] == FieldsBytes(FieldsOf(b), payload + rest)
  {
    hide Be, FieldsBytes, EncodeTime, FieldsOf;
  }

  lemma FieldsLayout(f: Fields, tail: seq<byte>)
    ensures var g := FieldsBytes(f, tail);
            && |g| == 40 + |tail| && g[..2] == Be(f.attributes, 2) && g[2..6] == Be(f.lastOffsetDelta, 4)
            && g[6..14] == Be(f.firstMillis, 8) && g[14..22] == Be(f.maxMillis, 8) && g[22..30] == Be(f.producerId, 8)
            && g[30..32] == Be(f.producerEpoch, 2) && g[32..36] == Be(f.firstSequence, 4)
            && g[36..40] == Be(f.numRecords, 4) && g[40..] == tail
  {
    hide Be;
  }

  lemma SmallVarint(n: nat)
    requires n < 64
    ensures Varint(n) == [2 * n]
  {}

  lemma ShortBytes(b: seq<byte>)
    requires |b| < 64
    ensures ItemBytes(VarintBytes(Some(b))) == [2 * |b|] + b
  {
    SmallVarint(|b|);
  }

  /** A header on the wire: its key and its value, each behind its length. */
  lemma HeaderBytesLayout(k: seq<byte>, v: seq<byte>, hs: seq<Header>)
    requires |k| < 64 && |v| < 64
    ensures HeadersBytes([Header(Some(k), Some(v))] + hs, [])
         == ([2 * |k|] + k) + (([2 * |v|] + v) + HeadersBytes(hs, []))
  {
    hide ItemBytes;
    ShortBytes(k);
    ShortBytes(v);
    assert ([Header(Some(k), Some(v))] + hs)[1..] == hs;
  }

  /**
    The fields of a record, for one whose lengths and numbers all fit one byte of varint: its length,
    attributes, time and offset, key, value, the number of headers, and the headers.
   */
  lemma RecordLayout(r: Record, k: seq<byte>, v: seq<byte>, millis: nat)
    requires r.key == Some(k) && r.value == Some(v) && |k| < 64 && |v| < 64 && |r.headers| < 64
    requires r.timestampDelta == millis * MILLISECOND && millis < 64 && 0 <= r.offsetDelta < 64
    requires |RecordBody(r)| < 64
    ensures var e := RecordBytes(r);
            && |e| > 6 + |k| + |v| && e[0] == 2 * (|e| - 1) && e[1..2] == Be(r.attributes, 1)
            && e[2] == 2 * millis && e[3] == 2 * r.offsetDelta
            && e[4] == 2 * |k| && e[5..5 + |k|] == k
            && e[5 + |k|] == 2 * |v| && e[6 + |k|..6 + |k| + |v|] == v
            && e[6 + |k| + |v|] == 2 * |r.headers| && e[7 + |k| + |v|..] == HeadersBytes(r.headers, [])
  {
    hide ItemBytes, Varint, HeadersBytes, Be, EncodeDuration;
    ShortBytes(k);
    ShortBytes(v);
    SmallVarint(millis);
    SmallVarint(r.offsetDelta);
    SmallVarint(|r.headers|);
    SmallVarint(|RecordBody(r)|);
    WholeMillis(millis);
    var t := ([2 * |v|] + v) + ([2 * |r.headers|] + HeadersBytes(r.headers, []));
    assert RecordBody(r) == Be(r.attributes, 1) + ([2 * millis] + ([2 * r.offsetDelta] + (([2 * |k|] + k) + t)));
    var e := RecordBytes(r);
    assert e[5 + |k|..] == t by {
      Parts(Be(r.attributes, 1), 2 * |RecordBody(r)|, 2 * millis, 2 * r.offsetDelta, 2 * |k|, k, t);
    }
    assert e[5..5 + |k|] == k && e[1..2] == Be(r.attributes, 1) by {
      Parts(Be(r.attributes, 1), 2 * |RecordBody(r)|, 2 * millis, 2 * r.offsetDelta, 2 * |k|, k, t);
    }
    assert e[6 + |k|..6 + |k| + |v|] == e[5 + |k|..][1..1 + |v|] && t[1..1 + |v|] == v;
    assert e[7 + |k| + |v|..] == e[5 + |k|..][2 + |v|..] && t[2 + |v|..] == HeadersBytes(r.headers, []);
    assert e[5 + |k|] == t[0] && e[6 + |k| + |v|] == t[1 + |v|];
  }

  lemma Parts(attributes: seq<byte>, n: byte, millis: byte, offset: byte, l: byte, k: seq<byte>, t: seq<byte>)
    requires |attributes| == 1
    ensures var e := [n] + (attributes + ([millis] + ([offset] + (([l] + k) + t))));
            && |e| == 5 + |k| + |t| && e[5 + |k|..] == t && e[5..5 + |k|] == k && e[1..2] == attributes
            && e[0] == n && e[2] == millis && e[3] == offset && e[4] == l
  {}

  lemma WholeMillis(n: nat)
    ensures EncodeDuration(n * MILLISECOND) == n
  {}

  // ---------------------------------------------------------------- message sets

  /** What follows the attributes and the timestamp: key and value, each behind four bytes of length. */
  function KeyAndValue(m: Message): seq<byte> {
    ItemBytes(Bytes(m.key)) + ItemBytes(Bytes(m.value))
  }

  /** A byte string behind its length, or -1 for null. */
  lemma BytesLayout(b: Option<seq<byte>>)
    requires ItemFits(Bytes(b))
    ensures var e := ItemBytes(Bytes(b));
            |e| >= 4 && match b case None => Signed(e) == -1 case Some(s) => Signed(e[..4]) == |s| && e[4..] == s
  {
    hide Fits;
    FitsRange(-1);
    SignedBe(-1, 4);
    if b.Some? {
      FitsRange(|b.value|);
      SignedBe(|b.value|, 4);
    }
  }

  /** Every field of an encoded block, read at its place. */
  lemma BlockLayout(b: MessageBlock, crc: Checksum)
    requires Plain(b) && BlockSize(b) <= MAX_INT32
    ensures var e := BlockBytes(b, crc, []);
            var at := if b.msg.version >= 1 then 26 else 18;
            && |e| == at + |KeyAndValue(b.msg)| && e[at..] == KeyAndValue(b.msg)
            && Signed(e[..8]) == b.offset && Signed(e[8..12]) == |e| - 12 && e[12..16] == Be(crc(e[16..]), 4)
            && Signed(e[16..17]) == b.msg.version && Signed(e[17..18]) == (if b.msg.logAppendTime then 8 else 0)
            && (b.msg.version >= 1 ==> Signed(e[18..26]) == Millis(b.msg.timestamp))
  {
    hide Millis, Fits, Be, Signed, ItemBytes, EncodeTime, MessageFits, AttributesOf, TypedTime, CoveredBytes, BlockBytes,
      KeyAndValue, BlockSize;
    var m := b.msg;
    var c := CoveredBytes(m, []);
    CoveredLayout(m);
    BlockHead(b, crc);
    var e := BlockBytes(b, crc, []);
    assert e[16..] == c;
    Shifted(e, 16, c, 0, 1);
    Shifted(e, 16, c, 1, 2);
    var at := if m.version >= 1 then 10 else 2;
    if m.version >= 1 {
      Shifted(e, 16, c, 2, 10);
    }
    assert e[16 + at..] == c[at..] by {
      assert e[16 + at..] == e[16..][at..];
    }
    BlockNumbers(b);
    if m.version >= 1 {
      MillisAre(m.timestamp);
    }
  }

  lemma BlockNumbers(b: MessageBlock)
    requires Plain(b) && BlockSize(b) <= MAX_INT32
    ensures Signed(Be(b.offset, 8)) == b.offset && Signed(Be(BlockSize(b) - 12, 4)) == BlockSize(b) - 12
    ensures Signed(Be(b.msg.version, 1)) == b.msg.version
    ensures Signed(Be(AttributesOf(b.msg), 1)) == if b.msg.logAppendTime then 8 else 0
    ensures b.msg.version >= 1 ==> Some(Signed(Be(EncodeTime(b.msg.timestamp).value, 8))) == EncodeTime(b.msg.timestamp)
  {
    hide Be, Signed, EncodeTime, MessageFits, TypedTime, CoveredBytes, Fits;
    FitsRange(BlockSize(b) - 12);
    SignedBe(b.offset, 8);
    SignedBe(BlockSize(b) - 12, 4);
    SignedBe(b.msg.version, 1);
    AttributeBits(b.msg);
    SignedBe(AttributesOf(b.msg), 1);
    if b.msg.version >= 1 {
      TimeBack(b.msg.timestamp);
      SignedBe(EncodeTime(b.msg.timestamp).value, 8);
    }
  }

  lemma CoveredLayout(m: Message)
    requires Dated(m)
    ensures var c := CoveredBytes(m, []);
            var at := if m.version >= 1 then 10 else 2;
            && |c| == at + |KeyAndValue(m)| && c[at..] == KeyAndValue(m)
            && c[0..1] == Be(m.version, 1) && c[1..2] == Be(AttributesOf(m), 1)
            && (m.version >= 1 ==> c[2..10] == Be(EncodeTime(m.timestamp).value, 8))
  {
    hide Be, ItemBytes, EncodeTime, AttributesOf;
    assert ItemBytes(Bytes(m.key)) + (ItemBytes(Bytes(m.value)) + []) == KeyAndValue(m);
  }

  lemma BlockHead(b: MessageBlock, crc: Checksum)
    requires Dated(b.msg)
    ensures var e := BlockBytes(b, crc, []);
            && |e| == BlockSize(b) == 16 + |CoveredBytes(b.msg, [])| && e[..8] == Be(b.offset, 8) && e[8..12] == Be(BlockSize(b) - 12, 4)
            && e[16..] == CoveredBytes(b.msg, []) && e[12..16] == Be(crc(CoveredBytes(b.msg, [])), 4)
  {
    hide Be, CoveredBytes;
  }

  /** The empty message of version 0, behind its checksum, as the tests of the source have it. */
  lemma MessageExample(m: Message)
    requires m.version == 0 && m.codec == COMPRESSION_NONE && !m.logAppendTime && m.key == None && m.value == None
    ensures CoveredBytes(m, []) == [0, 0, 255, 255, 255, 255, 255, 255, 255, 255]
  {
    assert Be(-1, 4) == [255, 255, 255, 255] by {
      assert Be(-1, 0) == [] && Be(-1, 1) == [255] && Be(-1, 2) == [255, 255] && Be(-1, 3) == [255, 255, 255];
    }
    assert Be(0, 1) == [0];
    assert AttributesOf(m) == 0;
  }
}
