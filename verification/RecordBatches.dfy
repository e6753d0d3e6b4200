/**
  Version-2 record batches: the records inside a batch, the batch header with its length and
  checksum, and the decoder that undoes them.
 */
module RecordBatches {
  import opened Wrappers
  import opened Wire
  import opened Encoder
  import opened Decoder

  datatype Header = Header(key: Option<seq<byte>>, value: Option<seq<byte>>)

  datatype Record = Record(
    attributes: int,
    timestampDelta: int,
    offsetDelta: int,
    key: Option<seq<byte>>,
    value: Option<seq<byte>>,
    headers: seq<Header>)

  datatype RecordBatch = RecordBatch(
    firstOffset: int,
    partitionLeaderEpoch: int,
    version: int,
    codec: int,
    control: bool,
    logAppendTime: bool,
    isTransactional: bool,
    lastOffsetDelta: int,
    firstTimestamp: int,
    maxTimestamp: int,
    producerId: int,
    producerEpoch: int,
    firstSequence: int,
    records: seq<Record>,
    partialTrailingRecord: bool)

  /** The compression libraries, by codec number; None is a failure. */
  datatype Codecs = Codecs(
    compress: (int, seq<byte>) -> Option<seq<byte>>,
    decompress: (int, seq<byte>) -> Option<seq<byte>>)

  const RECORD_BATCH_OVERHEAD := 49
  const COMPRESSION_NONE := 0

  // ---------------------------------------------------------------- times

  /** Times are nanoseconds since 1970, and durations nanoseconds. */
  const MILLISECOND := 1_000_000

  /** The zero time of Go is the first instant of the year 1. */
  const ZERO_TIME := -62_135_596_800 * 1_000_000_000

  /** Division that rounds towards zero. */
  function TruncDiv(a: int, b: int): int
    requires b > 0
  {
    if a >= 0 then a / b else -(-a / b)
  }

  function EncodeTime(t: int): Option<int> {
    if t >= 0 then Some(t / MILLISECOND)
    else if t == ZERO_TIME then Some(-1)
    else None
  }

  function DecodeTime(millis: int): int {
    if millis >= 0 then millis * MILLISECOND else ZERO_TIME
  }

  function RoundedTime(t: int): int {
    if t >= 0 then t / MILLISECOND * MILLISECOND else t
  }

  /** A time that can be told in nanoseconds since 1970, or the zero time. */
  predicate TypedTime(t: int) {
    t == ZERO_TIME || Fits(t, 8)
  }

  lemma TimeBack(t: int)
    requires EncodeTime(t).Some? && TypedTime(t)
    ensures Fits(EncodeTime(t).value, 8) && DecodeTime(EncodeTime(t).value) == RoundedTime(t)
  {
    if t != ZERO_TIME {
      FitsRange(t);
    }
    FitsRange(EncodeTime(t).value);
  }

  function EncodeDuration(d: int): int {
    TruncDiv(d, MILLISECOND)
  }

  function DecodeDuration(millis: int): int {
    Wrap64(millis * MILLISECOND)
  }

  lemma DurationBack(d: int)
    requires Fits(d, 8)
    ensures Fits(EncodeDuration(d), 8)
    ensures DecodeDuration(EncodeDuration(d)) == TruncDiv(d, MILLISECOND) * MILLISECOND
  {
    hide Fits, Wrap64;
    FitsRange(d);
    FitsRange(EncodeDuration(d));
    TruncTowardsZero(d);
    Wrap64Small(EncodeDuration(d) * MILLISECOND);
  }

  lemma TruncTowardsZero(d: int)
    ensures var m := TruncDiv(d, MILLISECOND);
            (0 <= m <= d && m * MILLISECOND <= d) || (d <= m <= 0 && d <= m * MILLISECOND)
  {}

  lemma Wrap64Small(v: int)
    requires -0x8000_0000_0000_0000 <= v < 0x8000_0000_0000_0000
    ensures Wrap64(v) == v
  {}

  // ---------------------------------------------------------------- records on the wire

  /** The headers, followed by `tail`. */
  function HeadersBytes(hs: seq<Header>, tail: seq<byte>): seq<byte> {
    if hs == [] then tail
    else ItemBytes(VarintBytes(hs[0].key)) + (ItemBytes(VarintBytes(hs[0].value)) + HeadersBytes(hs[1..], tail))
  }

  function BodyBytes(r: Record, tail: seq<byte>): seq<byte> {
    Be(r.attributes, 1) +
    (Varint(EncodeDuration(r.timestampDelta)) +
     (Varint(r.offsetDelta) +
      (ItemBytes(VarintBytes(r.key)) +
       (ItemBytes(VarintBytes(r.value)) +
        (Varint(|r.headers|) + HeadersBytes(r.headers, tail))))))
  }

  function RecordBody(r: Record): seq<byte> {
    BodyBytes(r, [])
  }

  function RecordBytes(r: Record): seq<byte> {
    Varint(|RecordBody(r)|) + RecordBody(r)
  }

  function RecordsBytes(rs: seq<Record>): seq<byte> {
    if rs == [] then [] else RecordBytes(rs[0]) + RecordsBytes(rs[1..])
  }

  lemma {:induction false} HeadersTail(hs: seq<Header>, tail: seq<byte>)
    ensures HeadersBytes(hs, tail) == HeadersBytes(hs, []) + tail
  {
    if hs != [] {
      HeadersTail(hs[1..], tail);
    }
  }

  lemma BodyTail(r: Record, tail: seq<byte>)
    ensures BodyBytes(r, tail) == RecordBody(r) + tail
  {
    hide HeadersBytes, ItemBytes, Be, Varint;
    HeadersTail(r.headers, tail);
  }

  // ---------------------------------------------------------------- the calls that encode makes

  function HeadersScript(hs: seq<Header>): Script {
    if hs == [] then Done
    else Put(VarintBytes(hs[0].key), Put(VarintBytes(hs[0].value), HeadersScript(hs[1..])))
  }

  function BodyScript(r: Record): Script {
    Put(Int(r.attributes, 1),
    Put(VarintItem(EncodeDuration(r.timestampDelta)),
    Put(VarintItem(r.offsetDelta),
    Put(VarintBytes(r.key),
    Put(VarintBytes(r.value),
    Put(VarintItem(|r.headers|),
    HeadersScript(r.headers)))))))
  }

  /** Each record pushes its own length field. */
  function RecordsScript(rs: seq<Record>, fields: seq<VarintLengthField>): Script
    requires |fields| == |rs|
  {
    if rs == [] then Done
    else Nest(VarintLength(fields[0]), BodyScript(rs[0]), RecordsScript(rs[1..], fields[1..]))
  }

  predicate HeaderFits(h: Header) {
    ItemFits(VarintBytes(h.key)) && ItemFits(VarintBytes(h.value))
  }

  predicate RecordFits(r: Record) {
    && ItemFits(VarintBytes(r.key)) && ItemFits(VarintBytes(r.value))
    && forall h :: h in r.headers ==> HeaderFits(h)
  }

  lemma {:induction false} HeadersWritten(hs: seq<Header>, crc: Checksum)
    ensures WireForm(HeadersScript(hs), crc) == HeadersBytes(hs, [])
    ensures Acceptable(HeadersScript(hs)) <==> forall h :: h in hs ==> HeaderFits(h)
    ensures Distinct(HeadersScript(hs)) && Fields(HeadersScript(hs)) == {}
  {
    hide ItemBytes, ItemFits;
    if hs != [] {
      var value := Put(VarintBytes(hs[0].value), HeadersScript(hs[1..]));
      assert HeadersScript(hs) == Put(VarintBytes(hs[0].key), value);
      HeadersWritten(hs[1..], crc);
      assert WireForm(value, crc) == ItemBytes(VarintBytes(hs[0].value)) + HeadersBytes(hs[1..], []);
      assert Acceptable(value) <==> ItemFits(VarintBytes(hs[0].value)) && Acceptable(HeadersScript(hs[1..]));
      assert forall h :: h in hs <==> h == hs[0] || h in hs[1..];
      assert hs[0] in hs && (HeaderFits(hs[0]) <==> ItemFits(VarintBytes(hs[0].key)) && ItemFits(VarintBytes(hs[0].value)));
    }
  }

  lemma BodyWritten(r: Record, crc: Checksum)
    ensures WireForm(BodyScript(r), crc) == RecordBody(r)
    ensures Acceptable(BodyScript(r)) <==> RecordFits(r)
    ensures Distinct(BodyScript(r)) && Fields(BodyScript(r)) == {}
  {
    hide HeadersBytes, HeadersScript, Varint, Be, HeaderFits;
    HeadersWritten(r.headers, crc);
    var s6 := Put(VarintItem(|r.headers|), HeadersScript(r.headers));
    var s5 := Put(VarintBytes(r.value), s6);
    var s4 := Put(VarintBytes(r.key), s5);
    var s3 := Put(VarintItem(r.offsetDelta), s4);
    var s2 := Put(VarintItem(EncodeDuration(r.timestampDelta)), s3);
    var s1 := Put(Int(r.attributes, 1), s2);
    assert WireForm(s6, crc) == Varint(|r.headers|) + HeadersBytes(r.headers, []);
    assert WireForm(s5, crc) == ItemBytes(VarintBytes(r.value)) + WireForm(s6, crc);
    assert WireForm(s4, crc) == ItemBytes(VarintBytes(r.key)) + WireForm(s5, crc);
    assert WireForm(s3, crc) == Varint(r.offsetDelta) + WireForm(s4, crc);
    assert WireForm(s2, crc) == Varint(EncodeDuration(r.timestampDelta)) + WireForm(s3, crc);
    assert WireForm(s1, crc) == Be(r.attributes, 1) + WireForm(s2, crc);
    assert Acceptable(s6) <==> forall h :: h in r.headers ==> HeaderFits(h);
    assert Acceptable(s5) <==> ItemFits(VarintBytes(r.value)) && Acceptable(s6);
    assert Acceptable(s4) <==> ItemFits(VarintBytes(r.key)) && Acceptable(s5);
    assert Acceptable(s3) <==> Acceptable(s4);
    assert Acceptable(s2) <==> Acceptable(s3);
    assert Distinct(s6) && Fields(s6) == {};
    assert Distinct(s5) && Fields(s5) == {};
    assert Distinct(s4) && Fields(s4) == {};
    assert Distinct(s3) && Fields(s3) == {};
    assert Distinct(s2) && Fields(s2) == {};
  }

  ghost predicate NoRepeats(fields: seq<VarintLengthField>) {
    forall i, j :: 0 <= i < j < |fields| ==> fields[i] != fields[j]
  }

  lemma {:induction false} RecordsWritten(rs: seq<Record>, fields: seq<VarintLengthField>, crc: Checksum)
    requires |fields| == |rs|
    ensures WireForm(RecordsScript(rs, fields), crc) == RecordsBytes(rs)
    ensures Acceptable(RecordsScript(rs, fields)) <==> forall r :: r in rs ==> RecordFits(r)
  {
    hide BodyScript, RecordBody, RecordFits;
    if rs != [] {
      RecordsWritten(rs[1..], fields[1..], crc);
      BodyWritten(rs[0], crc);
      assert forall r :: r in rs <==> r == rs[0] || r in rs[1..];
    }
  }

  lemma {:induction false} RecordsOwn(rs: seq<Record>, fields: seq<VarintLengthField>)
    requires |fields| == |rs| && NoRepeats(fields)
    ensures Fields(RecordsScript(rs, fields)) == set f | f in fields
    ensures Distinct(RecordsScript(rs, fields))
  {
    hide BodyScript;
    if rs != [] {
      RecordsOwn(rs[1..], fields[1..]);
      BodyWritten(rs[0], _ => 0);
      assert forall f :: f in fields <==> f == fields[0] || f in fields[1..];
    }
  }

  // ---------------------------------------------------------------- decoding records

  function ParseHeaders(s: seq<byte>, n: int): (r: Read<seq<Header>>)
    ensures r.Ok? ==> |r.value.1| <= |s|
    decreases n
  {
    if n <= 0 then Ok(([], s))
    else
      var (key, s1) :- GetVarintBytes(s);
      var (value, s2) :- GetVarintBytes(s1);
      var (hs, s3) :- ParseHeaders(s2, n - 1);
      Ok(([Header(key, value)] + hs, s3))
  }

  function ParseBody(s: seq<byte>): (r: Read<Record>)
    ensures r.Ok? ==> |r.value.1| <= |s|
  {
    var (attributes, s1) :- GetInt(s, 1);
    var (timestamp, s2) :- GetVarint(s1);
    var (offsetDelta, s3) :- GetVarint(s2);
    var (key, s4) :- GetVarintBytes(s3);
    var (value, s5) :- GetVarintBytes(s4);
    var (numHeaders, s6) :- GetVarint(s5);
    var (headers, s7) :- ParseHeaders(s6, numHeaders);
    Ok((Record(attributes, DecodeDuration(timestamp), offsetDelta, key, value, headers), s7))
  }

  function ParseRecord(s: seq<byte>, crc: Checksum): (r: Read<Record>)
    ensures r.Ok? ==> |r.value.1| <= |s|
  {
    var (length, s1) :- GetVarint(s);
    var (record, s2) :- ParseBody(s1);
    var _ :- Check(KindVarint, length, s[..|s| - |s2|], crc);
    Ok((record, s2))
  }

  function ParseRecords(s: seq<byte>, n: int, crc: Checksum): (r: Read<seq<Record>>)
    ensures r.Ok? ==> |r.value.1| <= |s|
    decreases n
  {
    if n <= 0 then Ok(([], s))
    else
      var (record, s1) :- ParseRecord(s, crc);
      var (rs, s2) :- ParseRecords(s1, n - 1, crc);
      Ok(([record] + rs, s2))
  }

  // ---------------------------------------------------------------- records come back

  /** The fields are within the integer types that the source gives them. */
  predicate Typed(r: Record) {
    Fits(r.attributes, 1) && Fits(r.timestampDelta, 8) && Fits(r.offsetDelta, 8)
  }

  predicate Readable(r: Record) {
    RecordFits(r) && Typed(r) && |RecordBody(r)| <= MAX_INT32
  }

  lemma {:induction false} HeadersTakeSpace(hs: seq<Header>, tail: seq<byte>)
    ensures |hs| <= |HeadersBytes(hs, tail)|
  {
    hide ItemBytes;
    if hs != [] {
      HeadersTakeSpace(hs[1..], tail);
      assert |ItemBytes(VarintBytes(hs[0].key))| >= 1 by {
        ItemNotEmpty(hs[0].key);
      }
    }
  }

  lemma ItemNotEmpty(b: Option<seq<byte>>)
    ensures |ItemBytes(VarintBytes(b))| >= 1
  {
    match b
    case None =>
    case Some(s) =>
  }

  /** Every record takes a byte, so an uncompressed batch always has room for its record count. */
  lemma {:induction false} RecordsTakeSpace(rs: seq<Record>)
    ensures |rs| <= |RecordsBytes(rs)|
    ensures forall r :: r in rs ==> |RecordBody(r)| <= |RecordsBytes(rs)|
  {
    hide RecordBody;
    if rs != [] {
      RecordsTakeSpace(rs[1..]);
    }
  }

  /** A record keeps its timestamp delta to the millisecond. */
  function RoundedRecord(r: Record): Record {
    r.(timestampDelta := TruncDiv(r.timestampDelta, MILLISECOND) * MILLISECOND)
  }

  function RoundedRecords(rs: seq<Record>): (out: seq<Record>)
    ensures |out| == |rs|
  {
    if rs == [] then [] else [RoundedRecord(rs[0])] + RoundedRecords(rs[1..])
  }

  lemma {:induction false} HeadersBack(hs: seq<Header>, rest: seq<byte>)
    requires forall h :: h in hs ==> HeaderFits(h)
    ensures ParseHeaders(HeadersBytes(hs, rest), |hs|) == Ok((hs, rest))
  {
    hide GetVarintBytes, ItemBytes, ItemFits;
    if hs != [] {
      var tail := HeadersBytes(hs[1..], rest);
      assert HeaderFits(hs[0]);
      VarintBytesBack(hs[0].key, ItemBytes(VarintBytes(hs[0].value)) + tail);
      VarintBytesBack(hs[0].value, tail);
      HeadersBack(hs[1..], rest);
      assert hs == [Header(hs[0].key, hs[0].value)] + hs[1..];
    }
  }

  lemma BodyBack(r: Record, rest: seq<byte>)
    requires Readable(r)
    ensures ParseBody(BodyBytes(r, rest)) == Ok((RoundedRecord(r), rest))
  {
    hide GetInt, GetVarint, GetVarintBytes, ParseHeaders, HeadersBytes, Be, Varint, ItemFits, HeaderFits, Fits,
      EncodeDuration, DecodeDuration;
    HeadersTakeSpace(r.headers, []);
    DurationBack(r.timestampDelta);
    FitsRange(|r.headers|);
    var s6 := HeadersBytes(r.headers, rest);
    var s5 := Varint(|r.headers|) + s6;
    var s4 := ItemBytes(VarintBytes(r.value)) + s5;
    var s3 := ItemBytes(VarintBytes(r.key)) + s4;
    var s2 := Varint(r.offsetDelta) + s3;
    var s1 := Varint(EncodeDuration(r.timestampDelta)) + s2;
    IntBack(r.attributes, 1, s1);
    VarintBack(EncodeDuration(r.timestampDelta), s2);
    VarintBack(r.offsetDelta, s3);
    VarintBytesBack(r.key, s4);
    VarintBytesBack(r.value, s5);
    VarintBack(|r.headers|, s6);
    HeadersBack(r.headers, rest);
  }

  lemma RecordBack(r: Record, rest: seq<byte>, crc: Checksum)
    requires Readable(r)
    ensures ParseRecord(RecordBytes(r) + rest, crc) == Ok((RoundedRecord(r), rest))
  {
    hide ParseBody, BodyBytes, GetVarint, Varint, RoundedRecord, RecordFits;
    var body := RecordBody(r);
    var s := RecordBytes(r) + rest;
    FitsRange(|body|);
    assert s == Varint(|body|) + (body + rest);
    VarintBack(|body|, body + rest);
    BodyTail(r, rest);
    BodyBack(r, rest);
    assert s[..|s| - |rest|] == RecordBytes(r);
  }

  lemma {:induction false} RecordsBack(rs: seq<Record>, rest: seq<byte>, crc: Checksum)
    requires forall r :: r in rs ==> Readable(r)
    ensures ParseRecords(RecordsBytes(rs) + rest, |rs|, crc) == Ok((RoundedRecords(rs), rest))
  {
    hide ParseRecord, RecordBytes, Readable, RoundedRecord;
    if rs == [] {
      assert RecordsBytes(rs) + rest == rest;
    } else {
      var tail := RecordsBytes(rs[1..]) + rest;
      assert RecordsBytes(rs) + rest == RecordBytes(rs[0]) + tail;
      RecordBack(rs[0], tail, crc);
      RecordsBack(rs[1..], rest, crc);
    }
  }

  // ---------------------------------------------------------------- the decode methods

  method DecodeHeaders(rd: RealDecoder, n: int) returns (r: Result<seq<Header>>)
    requires rd.Valid()
    modifies rd`off
    ensures rd.Valid() && Agrees(r, rd.Rest(), ParseHeaders(old(rd.Rest()), n))
  {
    hide GetVarintBytes;
    var hs: seq<Header>, i := [], 0;
    ghost var spec := ParseHeaders(rd.Rest(), n);
    PrependNone(spec);
    while i < n
      invariant rd.Valid() && i >= 0 && (n >= 0 ==> i <= n)
      invariant spec == Prepend(hs, ParseHeaders(rd.Rest(), n - i))
    {
      ghost var before, left := hs, rd.Rest();
      var key :- rd.ReadVarintBytes();
      var value :- rd.ReadVarintBytes();
      hs := hs + [Header(key, value)];
      i := i + 1;
      PrependOne(before, Header(key, value), ParseHeaders(rd.Rest(), n - i));
    }
    assert ParseHeaders(rd.Rest(), n - i) == Ok(([], rd.Rest()));
    assert hs + [] == hs;
    r := Ok(hs);
  }

  lemma PrependNone<T(!new)>(r: Read<seq<T>>)
    ensures Prepend([], r) == r
  {
    if r.Ok? {
      assert [] + r.value.0 == r.value.0;
    }
  }

  lemma PrependOne<T(!new)>(done: seq<T>, x: T, r: Read<seq<T>>)
    ensures Prepend(done, Prepend([x], r)) == Prepend(done + [x], r)
  {
    if r.Ok? {
      assert done + ([x] + r.value.0) == done + [x] + r.value.0;
    }
  }

  method DecodeBody(rd: RealDecoder) returns (r: Result<Record>)
    requires rd.Valid()
    modifies rd`off
    ensures rd.Valid() && Agrees(r, rd.Rest(), ParseBody(old(rd.Rest())))
  {
    hide GetInt, GetVarint, GetVarintBytes, ParseHeaders, DecodeDuration;
    var attributes :- rd.ReadInt(1);
    var timestamp :- rd.ReadVarint();
    var offsetDelta :- rd.ReadVarint();
    var key :- rd.ReadVarintBytes();
    var value :- rd.ReadVarintBytes();
    var numHeaders :- rd.ReadVarint();
    var headers :- DecodeHeaders(rd, numHeaders);
    r := Ok(Record(attributes, DecodeDuration(timestamp), offsetDelta, key, value, headers));
  }

  method DecodeRecord(rd: RealDecoder, ghost crc: Checksum) returns (r: Result<Record>)
    requires rd.Valid()
    modifies rd
    ensures rd.Valid() && Agrees(r, rd.Rest(), ParseRecord(old(rd.Rest()), crc))
    ensures r.Ok? ==> rd.stack == old(rd.stack)
  {
    hide GetVarint, ParseBody;
    var length := new VarintLengthField();
    ghost var s := rd.Rest();
    var _ :- rd.Push(PullVarint(length));
    var record :- DecodeBody(rd);
    assert rd.raw[length.startOffset..rd.off] == s[..|s| - |rd.Rest()|];
    assert rd.stack[|rd.stack| - 1] == PullVarint(length);
    var _ :- rd.Pop(crc);
    r := Ok(record);
  }

  method DecodeRecords(rd: RealDecoder, n: int, ghost crc: Checksum) returns (r: Result<seq<Record>>)
    requires rd.Valid()
    modifies rd
    ensures rd.Valid() && Agrees(r, rd.Rest(), ParseRecords(old(rd.Rest()), n, crc))
  {
    hide ParseRecord;
    var rs: seq<Record>, i := [], 0;
    ghost var spec := ParseRecords(rd.Rest(), n, crc);
    PrependNone(spec);
    while i < n
      invariant rd.Valid() && i >= 0 && (n >= 0 ==> i <= n)
      invariant spec == Prepend(rs, ParseRecords(rd.Rest(), n - i, crc))
    {
      ghost var before, left := rs, rd.Rest();
      var record :- DecodeRecord(rd, crc);
      rs := rs + [record];
      i := i + 1;
      PrependOne(before, record, ParseRecords(rd.Rest(), n - i, crc));
    }
    assert ParseRecords(rd.Rest(), n - i, crc) == Ok(([], rd.Rest()));
    assert rs + [] == rs;
    r := Ok(rs);
  }
}
