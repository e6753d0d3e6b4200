/**
  The record batch as a whole: its header, the nested length and checksum, the compressed records,
  and the round trip through encoder and decoder.
 */
module BatchCodec {
  import opened Wrappers
  import opened Wire
  import opened Encoder
  import opened Decoder
  import opened RecordBatches

  // ---------------------------------------------------------------- attributes

  function Bit(b: bool): nat {
    if b then 1 else 0
  }

  function ComputeAttributes(b: RecordBatch): int {
    b.codec % 8 + 8 * Bit(b.logAppendTime) + 16 * Bit(b.isTransactional) + 32 * Bit(b.control)
  }

  /** The part of the header that the checksum covers. */
  datatype Fields = Fields(
    attributes: int,
    lastOffsetDelta: int,
    firstMillis: int,
    maxMillis: int,
    producerId: int,
    producerEpoch: int,
    firstSequence: int,
    numRecords: int)

  function FieldsOf(b: RecordBatch): Fields
    requires EncodeTime(b.firstTimestamp).Some? && EncodeTime(b.maxTimestamp).Some?
  {
    Fields(ComputeAttributes(b), b.lastOffsetDelta, EncodeTime(b.firstTimestamp).value,
           EncodeTime(b.maxTimestamp).value, b.producerId, b.producerEpoch, b.firstSequence, |b.records|)
  }

  function BatchOf(firstOffset: int, epoch: int, version: int, f: Fields,
                   records: seq<Record>, partial: bool): RecordBatch {
    RecordBatch(firstOffset, epoch, version, f.attributes % 8, f.attributes / 32 % 2 == 1,
                f.attributes / 8 % 2 == 1, f.attributes / 16 % 2 == 1, f.lastOffsetDelta,
                DecodeTime(f.firstMillis), DecodeTime(f.maxMillis), f.producerId, f.producerEpoch,
                f.firstSequence, records, partial)
  }

  // ---------------------------------------------------------------- encoding

  function FieldsBytes(f: Fields, tail: seq<byte>): seq<byte> {
    Be(f.attributes, 2) +
    (Be(f.lastOffsetDelta, 4) +
     (Be(f.firstMillis, 8) +
      (Be(f.maxMillis, 8) +
       (Be(f.producerId, 8) +
        (Be(f.producerEpoch, 2) +
         (Be(f.firstSequence, 4) +
          (Be(f.numRecords, 4) + tail)))))))
  }

  function FieldsScript(f: Fields, next: Script): Script {
    Put(Int(f.attributes, 2),
    Put(Int(f.lastOffsetDelta, 4),
    Put(Int(f.firstMillis, 8),
    Put(Int(f.maxMillis, 8),
    Put(Int(f.producerId, 8),
    Put(Int(f.producerEpoch, 2),
    Put(Int(f.firstSequence, 4),
    Put(ArrayLength(f.numRecords), next))))))))
  }

  function BatchScript(b: RecordBatch, payload: seq<byte>): Script
    requires EncodeTime(b.firstTimestamp).Some? && EncodeTime(b.maxTimestamp).Some?
  {
    Put(Int(b.firstOffset, 8),
    Nest(Length32,
         Put(Int(b.partitionLeaderEpoch, 4),
         Put(Int(b.version, 1),
         Nest(Checksum32, FieldsScript(FieldsOf(b), Put(RawBytes(payload), Done)), Done))),
         Done))
  }

  /** The bytes of a batch, followed by `rest`. */
  function BatchBytes(b: RecordBatch, payload: seq<byte>, crc: Checksum, rest: seq<byte>): seq<byte>
    requires EncodeTime(b.firstTimestamp).Some? && EncodeTime(b.maxTimestamp).Some?
  {
    Be(b.firstOffset, 8) +
    (Be(RECORD_BATCH_OVERHEAD + |payload|, 4) +
     (Be(b.partitionLeaderEpoch, 4) +
      (Be(b.version, 1) +
       (Be(crc(FieldsBytes(FieldsOf(b), payload)), 4) +
        FieldsBytes(FieldsOf(b), payload + rest)))))
  }

  lemma FieldsWritten(f: Fields, next: Script, crc: Checksum)
    requires Encoder.Fields(next) == {} && Distinct(next)
    ensures WireForm(FieldsScript(f, next), crc) == FieldsBytes(f, WireForm(next, crc))
    ensures Acceptable(FieldsScript(f, next)) <==> f.numRecords <= MAX_INT32 && Acceptable(next)
    ensures Distinct(FieldsScript(f, next)) && Encoder.Fields(FieldsScript(f, next)) == {}
  {
    hide Be;
    var s8 := Put(ArrayLength(f.numRecords), next);
    var s7 := Put(Int(f.firstSequence, 4), s8);
    var s6 := Put(Int(f.producerEpoch, 2), s7);
    var s5 := Put(Int(f.producerId, 8), s6);
    var s4 := Put(Int(f.maxMillis, 8), s5);
    var s3 := Put(Int(f.firstMillis, 8), s4);
    var s2 := Put(Int(f.lastOffsetDelta, 4), s3);
    assert WireForm(s8, crc) == Be(f.numRecords, 4) + WireForm(next, crc);
    assert WireForm(s7, crc) == Be(f.firstSequence, 4) + WireForm(s8, crc);
    assert WireForm(s6, crc) == Be(f.producerEpoch, 2) + WireForm(s7, crc);
    assert WireForm(s5, crc) == Be(f.producerId, 8) + WireForm(s6, crc);
    assert WireForm(s4, crc) == Be(f.maxMillis, 8) + WireForm(s5, crc);
    assert WireForm(s3, crc) == Be(f.firstMillis, 8) + WireForm(s4, crc);
    assert WireForm(s2, crc) == Be(f.lastOffsetDelta, 4) + WireForm(s3, crc);
    assert Acceptable(s8) <==> f.numRecords <= MAX_INT32 && Acceptable(next);
    assert Acceptable(s6) <==> Acceptable(s8);
    assert Acceptable(s4) <==> Acceptable(s6);
    assert Acceptable(s2) <==> Acceptable(s4);
    assert Distinct(s8) && Encoder.Fields(s8) == {};
    assert Distinct(s7) && Encoder.Fields(s7) == {};
    assert Distinct(s6) && Encoder.Fields(s6) == {};
    assert Distinct(s5) && Encoder.Fields(s5) == {};
    assert Distinct(s4) && Encoder.Fields(s4) == {};
    assert Distinct(s3) && Encoder.Fields(s3) == {};
    assert Distinct(s2) && Encoder.Fields(s2) == {};
  }

  lemma FieldsTail(f: Fields, tail: seq<byte>, rest: seq<byte>)
    ensures FieldsBytes(f, tail) + rest == FieldsBytes(f, tail + rest)
    ensures |FieldsBytes(f, tail)| == 40 + |tail|
  {
    hide Be;
  }

  lemma BatchShape(b: RecordBatch, payload: seq<byte>, crc: Checksum)
    requires EncodeTime(b.firstTimestamp).Some? && EncodeTime(b.maxTimestamp).Some?
    ensures Acceptable(BatchScript(b, payload)) <==> |b.records| <= MAX_INT32 && |payload| <= MAX_INT32
    ensures Distinct(BatchScript(b, payload)) && Encoder.Fields(BatchScript(b, payload)) == {}
  {
    hide FieldsBytes, FieldsScript, EncodeTime;
    var raw := Put(RawBytes(payload), Done);
    assert Acceptable(raw) <==> |payload| <= MAX_INT32;
    var inner := FieldsScript(FieldsOf(b), raw);
    FieldsWritten(FieldsOf(b), raw, crc);
    var sum := Nest(Checksum32, inner, Done);
    assert (Acceptable(sum) <==> Acceptable(inner)) && Distinct(sum) && Encoder.Fields(sum) == {};
    var version := Put(Int(b.version, 1), sum);
    assert (Acceptable(version) <==> Acceptable(sum)) && Distinct(version) && Encoder.Fields(version) == {};
    var body := Put(Int(b.partitionLeaderEpoch, 4), version);
    assert (Acceptable(body) <==> Acceptable(version)) && Distinct(body) && Encoder.Fields(body) == {};
    var length := Nest(Length32, body, Done);
    assert (Acceptable(length) <==> Acceptable(body)) && Distinct(length) && Encoder.Fields(length) == {};
    assert BatchScript(b, payload) == Put(Int(b.firstOffset, 8), length);
  }

  lemma BatchWritten(b: RecordBatch, payload: seq<byte>, crc: Checksum, rest: seq<byte>)
    requires EncodeTime(b.firstTimestamp).Some? && EncodeTime(b.maxTimestamp).Some?
    ensures WireForm(BatchScript(b, payload), crc) + rest == BatchBytes(b, payload, crc, rest)
    ensures |WireForm(BatchScript(b, payload), crc)| == 12 + RECORD_BATCH_OVERHEAD + |payload|
  {
    hide Be, FieldsBytes, FieldsScript, EncodeTime, Acceptable, Distinct, Encoder.Fields;
    var f := FieldsOf(b);
    var raw := Put(RawBytes(payload), Done);
    assert WireForm(raw, crc) == payload;
    var inner := FieldsScript(f, raw);
    FieldsBare(f, payload, crc);
    var c := FieldsBytes(f, payload);
    var sum := Nest(Checksum32, inner, Done);
    assert WireForm(sum, crc) == Be(crc(c), 4) + c;
    var version := Put(Int(b.version, 1), sum);
    assert WireForm(version, crc) == Be(b.version, 1) + (Be(crc(c), 4) + c);
    var body := Put(Int(b.partitionLeaderEpoch, 4), version);
    assert WireForm(body, crc) == Be(b.partitionLeaderEpoch, 4) + (Be(b.version, 1) + (Be(crc(c), 4) + c));
    FieldsTail(f, payload, rest);
    var length := Nest(Length32, body, Done);
    assert WireForm(length, crc) == Be(RECORD_BATCH_OVERHEAD + |payload|, 4) + WireForm(body, crc);
    assert BatchScript(b, payload) == Put(Int(b.firstOffset, 8), length);
    Regroup(Be(b.firstOffset, 8), Be(RECORD_BATCH_OVERHEAD + |payload|, 4), Be(b.partitionLeaderEpoch, 4),
            Be(b.version, 1), Be(crc(c), 4), c, rest);
  }

  lemma FieldsBare(f: Fields, payload: seq<byte>, crc: Checksum)
    ensures WireForm(FieldsScript(f, Put(RawBytes(payload), Done)), crc) == FieldsBytes(f, payload)
  {
    hide FieldsBytes, FieldsScript;
    var raw := Put(RawBytes(payload), Done);
    assert WireForm(raw, crc) == payload;
    FieldsWritten(f, raw, crc);
  }

  lemma Regroup(a0: seq<byte>, a1: seq<byte>, a2: seq<byte>, a3: seq<byte>, a4: seq<byte>, c: seq<byte>,
                rest: seq<byte>)
    ensures a0 + (a1 + (a2 + (a3 + (a4 + c)))) + rest == a0 + (a1 + (a2 + (a3 + (a4 + (c + rest)))))
  {}

  function Compress(z: Codecs, codec: int, raw: seq<byte>): Option<seq<byte>> {
    if codec == COMPRESSION_NONE then Some(raw) else z.compress(codec, raw)
  }

  function Decompress(z: Codecs, codec: int, data: seq<byte>): Option<seq<byte>> {
    if codec == COMPRESSION_NONE then Some(data) else z.decompress(codec, data)
  }

  /** What the encoder accepts. */
  predicate Encodable(b: RecordBatch, z: Codecs) {
    && b.version == 2
    && EncodeTime(b.firstTimestamp).Some? && EncodeTime(b.maxTimestamp).Some?
    && |b.records| <= MAX_INT32
    && (forall r :: r in b.records ==> RecordFits(r))
    && |RecordsBytes(b.records)| <= MAX_REQUEST_SIZE
    && var payload := Compress(z, b.codec, RecordsBytes(b.records));
       payload.Some? && 12 + RECORD_BATCH_OVERHEAD + |payload.value| <= MAX_REQUEST_SIZE
  }

  /** The batch on the wire, followed by `rest`. */
  function Encoded(b: RecordBatch, z: Codecs, crc: Checksum, rest: seq<byte>): seq<byte>
    requires Encodable(b, z)
  {
    BatchBytes(b, Compress(z, b.codec, RecordsBytes(b.records)).value, crc, rest)
  }

  /** The length fields belong to the record objects, and may be left over from an earlier encoding. */
  method EncodeBatch(b: RecordBatch, lengths: seq<VarintLengthField>, z: Codecs, crc: Checksum)
    returns (r: Option<array<byte>>)
    requires |lengths| == |b.records| && NoRepeats(lengths)
    modifies set f | f in lengths
    ensures r.Some? <==> Encodable(b, z)
    ensures r.Some? ==> r.value[..] == Encoded(b, z, crc, [])
  {
    hide RecordsScript, WireForm, Acceptable, Distinct, Encoder.Fields, BatchScript, RecordsBytes, BatchBytes,
      EncodeTime, RecordFits;
    if b.version != 2 { return None; }
    if EncodeTime(b.firstTimestamp) == None || EncodeTime(b.maxTimestamp) == None { return None; }
    if |b.records| > MAX_INT32 { return None; }
    RecordsWritten(b.records, lengths, crc);
    RecordsOwn(b.records, lengths);
    var raw := Encode(RecordsScript(b.records, lengths), crc);
    if raw == None { return None; }
    var payload := Compress(z, b.codec, raw.value[..]);
    if payload == None { return None; }
    BatchShape(b, payload.value, crc);
    BatchWritten(b, payload.value, crc, []);
    r := Encode(BatchScript(b, payload.value), crc);
    assert r.Some? ==> r.value[..] + [] == r.value[..];
  }

  // ---------------------------------------------------------------- decoding

  function ParseFields(s: seq<byte>): (r: Read<Fields>)
    ensures r.Ok? ==> |r.value.1| <= |s|
  {
    var (attributes, s1) :- GetInt(s, 2);
    var (lastOffsetDelta, s2) :- GetInt(s1, 4);
    var (firstMillis, s3) :- GetInt(s2, 8);
    var (maxMillis, s4) :- GetInt(s3, 8);
    var (producerId, s5) :- GetInt(s4, 8);
    var (producerEpoch, s6) :- GetInt(s5, 2);
    var (firstSequence, s7) :- GetInt(s6, 4);
    var (numRecords, s8) :- GetArrayLength(s7);
    Ok((Fields(attributes, lastOffsetDelta, firstMillis, maxMillis, producerId, producerEpoch, firstSequence,
               numRecords), s8))
  }

  /** The records of a batch must fill their buffer; running short leaves a partial batch. */
  function ParsePayload(firstOffset: int, epoch: int, version: int, f: Fields, data: seq<byte>, z: Codecs,
                        crc: Checksum): Result<RecordBatch> {
    match Decompress(z, f.attributes % 8, data)
    case None => Err(DecompressionFailed)
    case Some(buf) =>
      match ParseRecords(buf, f.numRecords, crc)
      case Ok(p) =>
        if p.1 != [] then Err(InvalidLength) else Ok(BatchOf(firstOffset, epoch, version, f, p.0, false))
      case Err(InsufficientData) => Ok(BatchOf(firstOffset, epoch, version, f, [], true))
      case Err(e) => Err(e)
  }

  /** From the checksum on. */
  function ParseChecked(firstOffset: int, batchLen: int, epoch: int, version: int, s: seq<byte>, z: Codecs,
                        crc: Checksum): (r: Read<RecordBatch>)
    ensures r.Ok? ==> |r.value.1| <= |s|
  {
    var (_, s1) :- Skip(s, 4);
    var (f, s2) :- ParseFields(s1);
    match GetRawBytes(s2, batchLen - RECORD_BATCH_OVERHEAD)
    case Err(InsufficientData) => Ok((BatchOf(firstOffset, epoch, version, f, [], true), []))
    case Err(e) => Err(e)
    case Ok(p) =>
      var (data, s3) := p;
      var _ :- Check(KindCrc, 0, s[..|s| - |s3|], crc);
      var b :- ParsePayload(firstOffset, epoch, version, f, data, z, crc);
      Ok((b, s3))
  }

  function ParseBatch(s: seq<byte>, z: Codecs, crc: Checksum): (r: Read<RecordBatch>)
    ensures r.Ok? ==> |r.value.1| < |s|
  {
    var (firstOffset, s1) :- GetInt(s, 8);
    var (batchLen, s2) :- GetInt(s1, 4);
    var (epoch, s3) :- GetInt(s2, 4);
    var (version, s4) :- GetInt(s3, 1);
    ParseChecked(firstOffset, batchLen, epoch, version, s4, z, crc)
  }

  // ---------------------------------------------------------------- the round trip

  /** The fields are within the integer types that the source gives them. */
  predicate TypedBatch(b: RecordBatch) {
    && Fits(b.firstOffset, 8) && Fits(b.partitionLeaderEpoch, 4) && 0 <= b.codec < 8
    && Fits(b.lastOffsetDelta, 4) && TypedTime(b.firstTimestamp) && TypedTime(b.maxTimestamp)
    && Fits(b.producerId, 8) && Fits(b.producerEpoch, 2) && Fits(b.firstSequence, 4)
    && (forall r :: r in b.records ==> Typed(r))
    && !b.partialTrailingRecord
  }

  /** The batch with its times to the millisecond. */
  function RoundedBatch(b: RecordBatch): RecordBatch {
    b.(firstTimestamp := RoundedTime(b.firstTimestamp),
       maxTimestamp := RoundedTime(b.maxTimestamp),
       records := RoundedRecords(b.records))
  }

  lemma AttributesBack(b: RecordBatch)
    requires 0 <= b.codec < 8
    ensures var a := ComputeAttributes(b);
            && Fits(a, 2) && a % 8 == b.codec
            && (a / 8 % 2 == 1) == b.logAppendTime
            && (a / 16 % 2 == 1) == b.isTransactional
            && (a / 32 % 2 == 1) == b.control
  {
    hide Fits;
    var a := ComputeAttributes(b);
    FitsRange(a);
    var x, y, w := Bit(b.logAppendTime), Bit(b.isTransactional), Bit(b.control);
    assert a == b.codec + 8 * (x + 2 * y + 4 * w);
    assert a / 8 == x + 2 * y + 4 * w;
    assert a / 16 == y + 2 * w;
    assert a / 32 == w;
  }

  lemma FieldsBack(f: Fields, rest: seq<byte>)
    requires Fits(f.attributes, 2) && Fits(f.lastOffsetDelta, 4) && Fits(f.firstMillis, 8) && Fits(f.maxMillis, 8)
    requires Fits(f.producerId, 8) && Fits(f.producerEpoch, 2) && Fits(f.firstSequence, 4)
    requires 0 <= f.numRecords <= MAX_INT32
    ensures ParseFields(FieldsBytes(f, rest)) ==
            if f.numRecords > |rest| then Err(InsufficientData)
            else if f.numRecords > MAX_ARRAY_LENGTH then Err(InvalidArrayLength)
            else Ok((f, rest))
  {
    hide GetInt, Be, GetArrayLength, Fits;
    var s7 := Be(f.numRecords, 4) + rest;
    var s6 := Be(f.firstSequence, 4) + s7;
    var s5 := Be(f.producerEpoch, 2) + s6;
    var s4 := Be(f.producerId, 8) + s5;
    var s3 := Be(f.maxMillis, 8) + s4;
    var s2 := Be(f.firstMillis, 8) + s3;
    var s1 := Be(f.lastOffsetDelta, 4) + s2;
    IntBack(f.attributes, 2, s1);
    IntBack(f.lastOffsetDelta, 4, s2);
    IntBack(f.firstMillis, 8, s3);
    IntBack(f.maxMillis, 8, s4);
    IntBack(f.producerId, 8, s5);
    IntBack(f.producerEpoch, 2, s6);
    IntBack(f.firstSequence, 4, s7);
    ArrayLengthBack(f.numRecords, rest);
  }

  /** The codec of the batch gives back what it was given. */
  predicate Lossless(b: RecordBatch, z: Codecs) {
    var raw := RecordsBytes(b.records);
    match Compress(z, b.codec, raw)
    case None => true
    case Some(data) => Decompress(z, b.codec, data) == Some(raw)
  }

  lemma PayloadBack(b: RecordBatch, z: Codecs, crc: Checksum)
    requires TypedBatch(b) && Encodable(b, z) && Lossless(b, z)
    ensures var data := Compress(z, b.codec, RecordsBytes(b.records)).value;
            ParsePayload(b.firstOffset, b.partitionLeaderEpoch, b.version, FieldsOf(b), data, z, crc)
            == Ok(RoundedBatch(b))
  {
    hide RecordsBytes, ParseRecords, RoundedRecords, Typed, RecordFits, Fits, EncodeTime, DecodeTime, RoundedTime,
      ComputeAttributes;
    AttributesBack(b);
    TimeBack(b.firstTimestamp);
    TimeBack(b.maxTimestamp);
    RecordsTakeSpace(b.records);
    RecordsBack(b.records, [], crc);
    assert RecordsBytes(b.records) + [] == RecordsBytes(b.records);
  }

  /**
    What decoding an encoded batch gives, whatever follows it. The record count is compared with
    the bytes that are left, which for a compressed batch may be fewer than the records.
   */
  lemma BatchBack(b: RecordBatch, z: Codecs, crc: Checksum, rest: seq<byte>)
    requires TypedBatch(b) && Encodable(b, z) && Lossless(b, z)
    ensures var left := |Compress(z, b.codec, RecordsBytes(b.records)).value + rest|;
            ParseBatch(Encoded(b, z, crc, rest), z, crc) ==
            if |b.records| > left then Err(InsufficientData)
            else if |b.records| > MAX_ARRAY_LENGTH then Err(InvalidArrayLength)
            else Ok((RoundedBatch(b), rest))
  {
    hide GetInt, Be, Fits, ParseFields, ParsePayload, RoundedBatch, RecordsBytes, Typed, RecordFits, EncodeTime,
      FieldsBytes, ComputeAttributes, Compress, Decompress;
    var payload := Compress(z, b.codec, RecordsBytes(b.records)).value;
    var f := FieldsOf(b);
    var s5 := FieldsBytes(f, payload + rest);
    var c := FieldsBytes(f, payload);
    var s4 := Be(crc(c), 4) + s5;
    var s3 := Be(b.version, 1) + s4;
    var s2 := Be(b.partitionLeaderEpoch, 4) + s3;
    var s1 := Be(RECORD_BATCH_OVERHEAD + |payload|, 4) + s2;
    HeaderBack(b, |payload|, s1, s2, s3, s4);
    assert s4[4..] == s5;
    AttributesBack(b);
    TimeBack(b.firstTimestamp);
    TimeBack(b.maxTimestamp);
    FieldsBack(f, payload + rest);
    RawBack(payload, rest);
    FieldsTail(f, payload, rest);
    assert s4[..|s4| - |rest|] == Be(crc(c), 4) + c;
    assert (Be(crc(c), 4) + c)[..4] == Be(crc(c), 4) && (Be(crc(c), 4) + c)[4..] == c;
    PayloadBack(b, z, crc);
  }

  lemma HeaderBack(b: RecordBatch, size: nat, s1: seq<byte>, s2: seq<byte>, s3: seq<byte>, s4: seq<byte>)
    requires Fits(b.firstOffset, 8) && Fits(b.partitionLeaderEpoch, 4) && b.version == 2
    requires size <= MAX_REQUEST_SIZE
    ensures GetInt(Be(b.firstOffset, 8) + s1, 8) == Ok((b.firstOffset, s1))
    ensures GetInt(Be(RECORD_BATCH_OVERHEAD + size, 4) + s2, 4) == Ok((RECORD_BATCH_OVERHEAD + size, s2))
    ensures GetInt(Be(b.partitionLeaderEpoch, 4) + s3, 4) == Ok((b.partitionLeaderEpoch, s3))
    ensures GetInt(Be(b.version, 1) + s4, 1) == Ok((b.version, s4))
  {
    hide GetInt, Be;
    FitsRange(RECORD_BATCH_OVERHEAD + size);
    assert Fits(b.version, 1);
    IntBack(b.firstOffset, 8, s1);
    IntBack(RECORD_BATCH_OVERHEAD + size, 4, s2);
    IntBack(b.partitionLeaderEpoch, 4, s3);
    IntBack(b.version, 1, s4);
  }

  // ---------------------------------------------------------------- when nothing is lost

  predicate WholeTime(t: int) {
    t < 0 || t % MILLISECOND == 0
  }

  predicate WholeMillis(b: RecordBatch) {
    && WholeTime(b.firstTimestamp) && WholeTime(b.maxTimestamp)
    && forall r :: r in b.records ==> r.timestampDelta % MILLISECOND == 0
  }

  lemma {:induction false} RecordsWhole(rs: seq<Record>)
    ensures RoundedRecords(rs) == rs <==> forall r :: r in rs ==> r.timestampDelta % MILLISECOND == 0
  {
    if rs != [] {
      RecordsWhole(rs[1..]);
      var r := rs[0];
      RecordWhole(r);
      assert rs == [r] + rs[1..];
      assert forall x :: x in rs <==> x == r || x in rs[1..];
      assert RoundedRecords(rs)[0] == RoundedRecord(r) && RoundedRecords(rs)[1..] == RoundedRecords(rs[1..]);
    }
  }

  lemma RecordWhole(r: Record)
    ensures RoundedRecord(r) == r <==> r.timestampDelta % MILLISECOND == 0
  {}

  /**
    A batch comes back as it was, and exactly its own bytes are consumed, if and only if its times
    are whole milliseconds and its record count passes the two limits on array lengths.
   */
  lemma BatchRoundTrip(b: RecordBatch, z: Codecs, crc: Checksum, rest: seq<byte>)
    requires TypedBatch(b) && Encodable(b, z) && Lossless(b, z)
    ensures ParseBatch(Encoded(b, z, crc, rest), z, crc) == Ok((b, rest)) <==>
            && WholeMillis(b)
            && |b.records| <= MAX_ARRAY_LENGTH
            && |b.records| <= |Compress(z, b.codec, RecordsBytes(b.records)).value| + |rest|
  {
    hide ParseBatch, Encoded, TypedBatch, Encodable, Lossless, RecordsBytes, RoundedRecords, Compress;
    BatchBack(b, z, crc, rest);
    RecordsWhole(b.records);
    assert RoundedBatch(b) == b <==> WholeMillis(b);
  }

  /** Without compression the record count is never more than the bytes that are left. */
  lemma UncompressedRoundTrip(b: RecordBatch, z: Codecs, crc: Checksum, rest: seq<byte>)
    requires TypedBatch(b) && Encodable(b, z) && b.codec == COMPRESSION_NONE
    ensures ParseBatch(Encoded(b, z, crc, rest), z, crc) == Ok((b, rest)) <==>
            WholeMillis(b) && |b.records| <= MAX_ARRAY_LENGTH
  {
    hide ParseBatch, Encoded, TypedBatch, RecordsBytes, WholeMillis;
    RecordsTakeSpace(b.records);
    BatchRoundTrip(b, z, crc, rest);
  }

  // ---------------------------------------------------------------- a batch that is refused

  /** A codec that knows one text very well: it writes a zero for it, and a one before any other. */
  function OneText(raw: seq<byte>): Codecs {
    Codecs((c: int, x: seq<byte>) => Some(if x == raw then [0] else [1] + x),
           (c: int, d: seq<byte>) => if d == [] then None else if d[0] == 0 then Some(raw) else Some(d[1..]))
  }

  lemma OneTextLossless(raw: seq<byte>, codec: int, x: seq<byte>)
    ensures var y := Compress(OneText(raw), codec, x);
            y.Some? && Decompress(OneText(raw), codec, y.value) == Some(x)
  {
    assert ([1] + x)[1..] == x;
  }

  const BLANK := Record(0, 0, 0, None, None, [])

  function Blanks(n: nat): (rs: seq<Record>)
    ensures |rs| == n && forall r :: r in rs ==> r == BLANK
  {
    if n == 0 then [] else [BLANK] + Blanks(n - 1)
  }

  /** A batch as the producer builds it, with no time but the first. */
  function BlankBatch(n: nat): RecordBatch {
    RecordBatch(0, 0, 2, 1, false, false, false, 0, 0, ZERO_TIME, 0, 0, 0, Blanks(n), false)
  }

  lemma BlankBytes()
    ensures |RecordBytes(BLANK)| == 7
  {
    assert |Varint(0)| == 1 && |Varint(-1)| == 1 && |Varint(6)| == 1;
    assert EncodeDuration(0) == 0;
    assert |Be(0, 1)| == 1;
    assert |RecordBody(BLANK)| == 6;
  }

  lemma {:induction false} BlanksBytes(n: nat)
    ensures |RecordsBytes(Blanks(n))| == 7 * n
  {
    hide RecordBytes;
    if n > 0 {
      BlankBytes();
      BlanksBytes(n - 1);
      assert Blanks(n)[0] == BLANK && Blanks(n)[1..] == Blanks(n - 1);
    }
  }

  /**
    A codec that loses nothing, and batches of any two or more records that the encoder accepts and the
    decoder refuses, because there are more records than compressed bytes.
   */
  lemma CompressedRefused(n: nat, crc: Checksum)
    requires 2 <= n <= 1_000_000
    ensures var b, z := BlankBatch(n), OneText(RecordsBytes(Blanks(n)));
            && (forall codec, x :: var y := z.compress(codec, x); y.Some? && z.decompress(codec, y.value) == Some(x))
            && TypedBatch(b) && Encodable(b, z) && Lossless(b, z) && WholeMillis(b)
            && ParseBatch(Encoded(b, z, crc, []), z, crc) == Err(InsufficientData)
  {
    hide RecordsBytes, ParseBatch, Encoded;
    var b, z := BlankBatch(n), OneText(RecordsBytes(Blanks(n)));
    forall codec, x
      ensures var y := z.compress(codec, x); y.Some? && z.decompress(codec, y.value) == Some(x)
    {
      assert ([1] + x)[1..] == x;
    }
    BlanksBytes(n);
    BlankFits(n);
    OneTextLossless(RecordsBytes(Blanks(n)), 1, RecordsBytes(Blanks(n)));
    BatchBack(b, z, crc, []);
    assert Compress(z, 1, RecordsBytes(Blanks(n))).value + [] == [0];
  }

  lemma BlankFits(n: nat)
    ensures TypedBatch(BlankBatch(n)) && WholeMillis(BlankBatch(n))
    ensures forall r :: r in Blanks(n) ==> RecordFits(r)
  {
    FitsZero();
  }

  lemma FitsZero()
    ensures Fits(0, 1) && Fits(0, 2) && Fits(0, 4) && Fits(0, 8)
  {}

  // ---------------------------------------------------------------- the decode method

  method DecodeFields(rd: RealDecoder) returns (r: Result<Fields>)
    requires rd.Valid()
    modifies rd`off
    ensures rd.Valid() && Agrees(r, rd.Rest(), ParseFields(old(rd.Rest())))
  {
    hide GetInt, GetArrayLength;
    var attributes :- rd.ReadInt(2);
    var lastOffsetDelta :- rd.ReadInt(4);
    var firstMillis :- rd.ReadInt(8);
    var maxMillis :- rd.ReadInt(8);
    var producerId :- rd.ReadInt(8);
    var producerEpoch :- rd.ReadInt(2);
    var firstSequence :- rd.ReadInt(4);
    var numRecords :- rd.ReadArrayLength();
    r := Ok(Fields(attributes, lastOffsetDelta, firstMillis, maxMillis, producerId, producerEpoch, firstSequence,
                   numRecords));
  }

  method DecodePayload(firstOffset: int, epoch: int, version: int, f: Fields, data: seq<byte>, z: Codecs,
                       crc: Checksum) returns (r: Result<RecordBatch>)
    ensures r == ParsePayload(firstOffset, epoch, version, f, data, z, crc)
  {
    hide ParseRecords, BatchOf;
    var buf := Decompress(z, f.attributes % 8, data);
    if buf == None { return Err(DecompressionFailed); }
    var helper := new RealDecoder(buf.value);
    var rs := DecodeRecords(helper, f.numRecords, crc);
    match rs {
      case Ok(records) =>
        if helper.off != |buf.value| { return Err(InvalidLength); }
        r := Ok(BatchOf(firstOffset, epoch, version, f, records, false));
      case Err(InsufficientData) => r := Ok(BatchOf(firstOffset, epoch, version, f, [], true));
      case Err(e) => r := Err(e);
    }
  }

  method DecodeChecked(firstOffset: int, batchLen: int, epoch: int, version: int, rd: RealDecoder, z: Codecs,
                       crc: Checksum)
    returns (r: Result<RecordBatch>)
    requires rd.Valid()
    modifies rd
    ensures rd.Valid()
    ensures Agrees(r, rd.Rest(), ParseChecked(firstOffset, batchLen, epoch, version, old(rd.Rest()), z, crc))
  {
    hide ParseFields, BatchOf, ParsePayload, Check, GetRawBytes;
    var sum := new Crc32Field();
    ghost var s := rd.Rest();
    var _ :- rd.Push(PullCrc(sum, crc));
    var f :- DecodeFields(rd);
    var data := rd.ReadRawBytes(batchLen - RECORD_BATCH_OVERHEAD);
    match data {
      case Err(InsufficientData) =>
        return Ok(BatchOf(firstOffset, epoch, version, f, [], true));
      case Err(e) => return Err(e);
      case Ok(recBuffer) =>
        assert rd.raw[sum.startOffset..rd.off] == s[..|s| - |rd.Rest()|];
        assert rd.stack[|rd.stack| - 1] == PullCrc(sum, crc);
        var _ :- rd.Pop(crc);
        var b :- DecodePayload(firstOffset, epoch, version, f, recBuffer, z, crc);
        r := Ok(b);
    }
  }

  method DecodeBatch(rd: RealDecoder, z: Codecs, crc: Checksum) returns (r: Result<RecordBatch>)
    requires rd.Valid()
    modifies rd
    ensures rd.Valid() && Agrees(r, rd.Rest(), ParseBatch(old(rd.Rest()), z, crc))
  {
    hide GetInt, ParseChecked;
    var firstOffset :- rd.ReadInt(8);
    var batchLen :- rd.ReadInt(4);
    var epoch :- rd.ReadInt(4);
    var version :- rd.ReadInt(1);
    r := DecodeChecked(firstOffset, batchLen, epoch, version, rd, z, crc);
  }
}
