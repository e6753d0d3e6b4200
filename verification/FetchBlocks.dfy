/**
  The records of one partition in a fetch response: message sets or record batches one after another,
  which the broker may have cut off anywhere. The decoder keeps the batches that are whole, and marks
  the block as partial only if there is no such batch.
 */
module FetchBlocks {
  import opened Wrappers
  import opened Wire
  import opened Encoder
  import opened Decoder
  import opened RecordBatches
  import opened BatchCodec
  import opened MessageSets

  /** Legacy messages and record batches are checked with different polynomials. */
  datatype Libraries = Libraries(z: Codecs, unwrap: Unwrap, ieee: Checksum, castagnoli: Checksum)

  datatype Records = LegacySet(messages: MessageSet) | DefaultBatch(batch: RecordBatch)

  function NumRecords(r: Records): nat {
    match r
    case LegacySet(ms) => |ms.messages|
    case DefaultBatch(b) => |b.records|
  }

  predicate IsPartial(r: Records) {
    match r
    case LegacySet(ms) => ms.partialTrailingMessage
    case DefaultBatch(b) => b.partialTrailingRecord
  }

  predicate IsOverflow(r: Records) {
    r.LegacySet? && r.messages.overflowMessage
  }

  /** The magic byte tells the two formats apart. */
  function ParseRecordsAt(s: seq<byte>, lib: Libraries): (r: Read<Records>)
    ensures r.Ok? ==> |r.value.1| < |s|
  {
    if |s| < MAGIC_OFFSET + 1 then Err(InsufficientData)
    else if Signed([s[MAGIC_OFFSET]]) < 2 then
      var (ms, rest) :- ParseSet([], s, lib.unwrap, lib.ieee);
      Ok((LegacySet(ms), rest))
    else
      var (b, rest) :- ParseBatch(s, lib.z, lib.castagnoli);
      Ok((DefaultBatch(b), rest))
  }

  datatype Block = Block(recordsSet: seq<Records>, partial: bool)

  /** What is kept of the next records. */
  function KeepNext(done: seq<Records>, r: Records): seq<Records> {
    if NumRecords(r) > 0 || (IsPartial(r) && done == []) then done + [r] else done
  }

  /** Decodes what follows the records already kept. */
  function ParseBlockFrom(done: seq<Records>, s: seq<byte>, lib: Libraries): Result<Block>
    decreases |s|
  {
    if s == [] then Ok(Block(done, false))
    else
      match ParseRecordsAt(s, lib)
      case Err(InsufficientData) => Ok(Block(done, done == []))
      case Err(e) => Err(e)
      case Ok(p) =>
        if IsPartial(p.0) || IsOverflow(p.0) then Ok(Block(KeepNext(done, p.0), false))
        else ParseBlockFrom(KeepNext(done, p.0), p.1, lib)
  }

  predicate BlockIsPartial(b: Block) {
    b.partial || (|b.recordsSet| == 1 && IsPartial(b.recordsSet[0]))
  }

  // ---------------------------------------------------------------- a batch that is cut

  lemma IntCut(v: int, width: nat, rest: seq<byte>, n: nat)
    requires Fits(v, width) && n <= width + |rest|
    ensures width > 0
    ensures GetInt((Be(v, width) + rest)[..n], width) ==
            if n < width then Err(InsufficientData) else Ok((v, rest[..n - width]))
  {
    SignedBe(v, width);
    if n >= width {
      var s := (Be(v, width) + rest)[..n];
      assert s == Be(v, width) + rest[..n - width];
      IntBack(v, width, rest[..n - width]);
    }
  }

  lemma ArrayLengthCut(k: nat, rest: seq<byte>, n: nat)
    requires k <= MAX_ARRAY_LENGTH && n <= 4 + |rest|
    ensures GetArrayLength((Be(k, 4) + rest)[..n]) ==
            if n < 4 || k > n - 4 then Err(InsufficientData) else Ok((k, rest[..n - 4]))
  {
    hide Fits, Be, GetInt;
    FitsRange(k);
    IntCut(k, 4, rest, n);
  }

  predicate TypedFields(f: Fields) {
    && Fits(f.attributes, 2) && Fits(f.lastOffsetDelta, 4) && Fits(f.firstMillis, 8) && Fits(f.maxMillis, 8)
    && Fits(f.producerId, 8) && Fits(f.producerEpoch, 2) && Fits(f.firstSequence, 4)
    && 0 <= f.numRecords <= MAX_ARRAY_LENGTH
  }

  lemma FieldsCut(f: Fields, rest: seq<byte>, n: nat)
    requires TypedFields(f) && n <= 40 + |rest|
    ensures |FieldsBytes(f, rest)| == 40 + |rest|
    ensures ParseFields(FieldsBytes(f, rest)[..n]) ==
            if n < 40 || f.numRecords > n - 40 then Err(InsufficientData) else Ok((f, rest[..n - 40]))
  {
    hide GetInt, Be, GetArrayLength, Fits;
    var s7 := Be(f.numRecords, 4) + rest;
    var s6 := Be(f.firstSequence, 4) + s7;
    var s5 := Be(f.producerEpoch, 2) + s6;
    var s4 := Be(f.producerId, 8) + s5;
    var s3 := Be(f.maxMillis, 8) + s4;
    var s2 := Be(f.firstMillis, 8) + s3;
    var s1 := Be(f.lastOffsetDelta, 4) + s2;
    IntCut(f.attributes, 2, s1, n);
    if n >= 2 { IntCut(f.lastOffsetDelta, 4, s2, n - 2); }
    if n >= 6 { IntCut(f.firstMillis, 8, s3, n - 6); }
    if n >= 14 { IntCut(f.maxMillis, 8, s4, n - 14); }
    if n >= 22 { IntCut(f.producerId, 8, s5, n - 22); }
    if n >= 30 { IntCut(f.producerEpoch, 2, s6, n - 30); }
    if n >= 32 { IntCut(f.firstSequence, 4, s7, n - 32); }
    if n >= 36 { ArrayLengthCut(f.numRecords, rest, n - 36); }
  }

  /** A batch that encodes, decodes to itself, and whose record count passes the limits on array lengths. */
  ghost predicate Good(b: RecordBatch, z: Codecs) {
    && TypedBatch(b) && Encodable(b, z) && Lossless(b, z)
    && |b.records| <= MAX_ARRAY_LENGTH
    && |b.records| <= |Payload(b, z)|
  }

  function Payload(b: RecordBatch, z: Codecs): seq<byte>
    requires Encodable(b, z)
  {
    Compress(z, b.codec, RecordsBytes(b.records)).value
  }

  function BatchSize(b: RecordBatch, z: Codecs): nat
    requires Encodable(b, z)
  {
    12 + RECORD_BATCH_OVERHEAD + |Payload(b, z)|
  }

  /** All that is known of a batch when only its header is there. */
  function HeaderOf(b: RecordBatch): RecordBatch
    requires EncodeTime(b.firstTimestamp).Some? && EncodeTime(b.maxTimestamp).Some?
  {
    BatchOf(b.firstOffset, b.partitionLeaderEpoch, b.version, FieldsOf(b), [], true)
  }

  lemma GoodFields(b: RecordBatch, z: Codecs)
    requires Good(b, z)
    ensures TypedFields(FieldsOf(b)) && FieldsOf(b).numRecords == |b.records|
  {
    hide Fits, EncodeTime, ComputeAttributes, RecordsBytes, RecordFits, Typed, Compress, Decompress;
    AttributesBack(b);
    TimeBack(b.firstTimestamp);
    TimeBack(b.maxTimestamp);
  }

  lemma CheckedCut(b: RecordBatch, z: Codecs, crc: Checksum, n: nat)
    requires Good(b, z) && n < 44 + |Payload(b, z)|
    ensures var payload := Payload(b, z);
            var s := Be(crc(FieldsBytes(FieldsOf(b), payload)), 4) + FieldsBytes(FieldsOf(b), payload);
            && |s| == 44 + |payload|
            && ParseChecked(b.firstOffset, RECORD_BATCH_OVERHEAD + |payload|, b.partitionLeaderEpoch, b.version,
                            s[..n], z, crc) ==
               if n >= 44 && |b.records| <= n - 44 then Ok((HeaderOf(b), [])) else Err(InsufficientData)
  {
    hide Be, ParseFields, BatchOf, ParsePayload, FieldsBytes, Payload, Good, Encodable, EncodeTime, TypedFields;
    GoodParts(b, z);
    var payload, f := Payload(b, z), FieldsOf(b);
    var c := FieldsBytes(f, payload);
    GoodFields(b, z);
    FieldsTail(f, payload, []);
    var s := (Be(crc(c), 4) + c)[..n];
    if n >= 4 {
      assert s[4..] == c[..n - 4];
      FieldsCut(f, payload, n - 4);
    }
  }

  lemma GoodParts(b: RecordBatch, z: Codecs)
    requires Good(b, z)
    ensures Encodable(b, z) && EncodeTime(b.firstTimestamp).Some? && EncodeTime(b.maxTimestamp).Some?
    ensures Fits(b.firstOffset, 8) && Fits(b.partitionLeaderEpoch, 4) && b.version == 2
    ensures BatchSize(b, z) <= MAX_REQUEST_SIZE
  {}

  lemma HeadCut(first: int, length: int, epoch: int, version: int, s4: seq<byte>, n: nat, z: Codecs, crc: Checksum)
    requires Fits(first, 8) && Fits(length, 4) && Fits(epoch, 4) && Fits(version, 1) && n <= 17 + |s4|
    ensures var s := Be(first, 8) + (Be(length, 4) + (Be(epoch, 4) + (Be(version, 1) + s4)));
            && |s| == 17 + |s4|
            && ParseBatch(s[..n], z, crc) ==
               if n < 17 then Err(InsufficientData)
               else ParseChecked(first, length, epoch, version, s4[..n - 17], z, crc)
  {
    hide GetInt, Be, ParseChecked, Fits;
    var s3 := Be(version, 1) + s4;
    var s2 := Be(epoch, 4) + s3;
    var s1 := Be(length, 4) + s2;
    IntCut(first, 8, s1, n);
    if n >= 8 { IntCut(length, 4, s2, n - 8); }
    if n >= 12 { IntCut(epoch, 4, s3, n - 12); }
    if n >= 16 { IntCut(version, 1, s4, n - 16); }
  }

  lemma EncodedParts(b: RecordBatch, z: Codecs, crc: Checksum)
    requires Encodable(b, z)
    ensures var c := FieldsBytes(FieldsOf(b), Payload(b, z));
            Encoded(b, z, crc, []) ==
            Be(b.firstOffset, 8) + (Be(RECORD_BATCH_OVERHEAD + |Payload(b, z)|, 4) +
            (Be(b.partitionLeaderEpoch, 4) + (Be(b.version, 1) + (Be(crc(c), 4) + c))))
  {
    hide Be, FieldsBytes, EncodeTime;
    assert Payload(b, z) + [] == Payload(b, z);
  }

  /** A batch that is cut gives nothing, or its header once there are as many more bytes as it has records. */
  lemma BatchCut(b: RecordBatch, z: Codecs, crc: Checksum, n: nat)
    requires Good(b, z) && n < BatchSize(b, z)
    ensures |Encoded(b, z, crc, [])| == BatchSize(b, z)
    ensures ParseBatch(Encoded(b, z, crc, [])[..n], z, crc) ==
            if n >= 61 && |b.records| <= n - 61 then Ok((HeaderOf(b), [])) else Err(InsufficientData)
  {
    hide ParseBatch, Encoded, Be, ParseChecked, HeaderOf, FieldsBytes, Good, Encodable, EncodeTime, Fits, Payload;
    GoodParts(b, z);
    var payload, f := Payload(b, z), FieldsOf(b);
    var c := FieldsBytes(f, payload);
    FieldsTail(f, payload, []);
    EncodedParts(b, z, crc);
    SmallFits(RECORD_BATCH_OVERHEAD + |payload|);
    HeadCut(b.firstOffset, RECORD_BATCH_OVERHEAD + |payload|, b.partitionLeaderEpoch, b.version, Be(crc(c), 4) + c, n,
            z, crc);
    if n >= 17 {
      CheckedCut(b, z, crc, n - 17);
    }
  }

  lemma SmallFits(n: nat)
    requires n <= MAX_REQUEST_SIZE
    ensures Fits(n, 4) && Fits(2, 1)
  {
    FitsRange(n);
  }

  // ---------------------------------------------------------------- batches one after another

  ghost predicate AllGood(bs: seq<RecordBatch>, z: Codecs) {
    forall i :: 0 <= i < |bs| ==> Good(bs[i], z)
  }

  function AllEncodable(bs: seq<RecordBatch>, z: Codecs): bool {
    forall i :: 0 <= i < |bs| ==> Encodable(bs[i], z)
  }

  function EncodedAll(bs: seq<RecordBatch>, z: Codecs, crc: Checksum): seq<byte>
    requires AllEncodable(bs, z)
  {
    if bs == [] then [] else Encoded(bs[0], z, crc, []) + EncodedAll(bs[1..], z, crc)
  }

  function AllSize(bs: seq<RecordBatch>, z: Codecs): nat
    requires AllEncodable(bs, z)
  {
    if bs == [] then 0 else BatchSize(bs[0], z) + AllSize(bs[1..], z)
  }

  lemma EncodedBefore(b: RecordBatch, z: Codecs, crc: Checksum, rest: seq<byte>)
    requires Encodable(b, z)
    ensures var c := FieldsBytes(FieldsOf(b), Payload(b, z));
            Encoded(b, z, crc, rest) ==
            Be(b.firstOffset, 8) + (Be(RECORD_BATCH_OVERHEAD + |Payload(b, z)|, 4) +
            (Be(b.partitionLeaderEpoch, 4) + (Be(b.version, 1) + (Be(crc(c), 4) + (c + rest)))))
  {
    hide Be, FieldsBytes, EncodeTime;
    FieldsTail(FieldsOf(b), Payload(b, z), rest);
  }

  lemma EncodedTail(b: RecordBatch, z: Codecs, crc: Checksum, rest: seq<byte>)
    requires Encodable(b, z)
    ensures Encoded(b, z, crc, rest) == Encoded(b, z, crc, []) + rest
    ensures |Encoded(b, z, crc, [])| == BatchSize(b, z)
  {
    hide Be, FieldsBytes, Encodable, Encoded, Payload, FieldsOf;
    TimesFit(b, z);
    var payload, f := Payload(b, z), FieldsOf(b);
    var c := FieldsBytes(f, payload);
    FieldsTail(f, payload, []);
    EncodedParts(b, z, crc);
    EncodedBefore(b, z, crc, rest);
    Regroup(Be(b.firstOffset, 8), Be(RECORD_BATCH_OVERHEAD + |payload|, 4), Be(b.partitionLeaderEpoch, 4),
            Be(b.version, 1), Be(crc(c), 4), c, rest);
  }

  lemma TimesFit(b: RecordBatch, z: Codecs)
    requires Encodable(b, z)
    ensures EncodeTime(b.firstTimestamp).Some? && EncodeTime(b.maxTimestamp).Some?
  {}

  lemma {:induction false} AllLength(bs: seq<RecordBatch>, z: Codecs, crc: Checksum)
    requires AllEncodable(bs, z)
    ensures |EncodedAll(bs, z, crc)| == AllSize(bs, z)
  {
    if bs != [] {
      hide Encoded, BatchSize, Encodable;
      EncodedTail(bs[0], z, crc, []);
      AllLength(bs[1..], z, crc);
    }
  }

  lemma MagicTwo(b: RecordBatch, z: Codecs, crc: Checksum, s: seq<byte>)
    requires Encodable(b, z) && MAGIC_OFFSET < |s|
    requires |s| <= |Encoded(b, z, crc, [])| && s == Encoded(b, z, crc, [])[..|s|]
    ensures Signed([s[MAGIC_OFFSET]]) == 2
  {
    hide EncodeTime, FieldsBytes, RecordsBytes, RecordFits, Compress;
    EncodedParts(b, z, crc);
    var c := FieldsBytes(FieldsOf(b), Payload(b, z));
    var head := Be(b.firstOffset, 8) + Be(RECORD_BATCH_OVERHEAD + |Payload(b, z)|, 4) + Be(b.partitionLeaderEpoch, 4);
    assert Encoded(b, z, crc, []) == head + (Be(b.version, 1) + (Be(crc(c), 4) + c));
    assert Be(2, 1) == [2];
  }

  function Whole(b: RecordBatch): Records {
    DefaultBatch(RoundedBatch(b))
  }

  lemma WholeIs(b: RecordBatch, z: Codecs)
    requires Good(b, z)
    ensures NumRecords(Whole(b)) == |b.records| && !IsPartial(Whole(b))
  {}

  /** A whole batch is decoded, whatever follows it. */
  lemma WholeParsed(b: RecordBatch, lib: Libraries, rest: seq<byte>)
    requires Good(b, lib.z)
    ensures ParseRecordsAt(Encoded(b, lib.z, lib.castagnoli, []) + rest, lib) == Ok((Whole(b), rest))
  {
    hide ParseBatch, Encoded, RoundedBatch, ParseSet, TypedBatch, Encodable, Lossless, Signed;
    var z, crc := lib.z, lib.castagnoli;
    var whole := Encoded(b, z, crc, []);
    GoodSize(b, z);
    EncodedTail(b, z, crc, rest);
    var s := whole + rest;
    MagicTwo(b, z, crc, s[..BatchSize(b, z)]);
    assert s[..BatchSize(b, z)][MAGIC_OFFSET] == s[MAGIC_OFFSET];
    BatchBack(b, z, crc, rest);
  }

  lemma GoodSize(b: RecordBatch, z: Codecs)
    requires Good(b, z)
    ensures Encodable(b, z) && BatchSize(b, z) > MAGIC_OFFSET
  {}

  lemma CutParsed(b: RecordBatch, lib: Libraries, n: nat)
    requires Good(b, lib.z) && n < BatchSize(b, lib.z)
    ensures |Encoded(b, lib.z, lib.castagnoli, [])| == BatchSize(b, lib.z)
    ensures ParseRecordsAt(Encoded(b, lib.z, lib.castagnoli, [])[..n], lib) ==
            if n >= 61 && |b.records| <= n - 61 then Ok((DefaultBatch(HeaderOf(b)), [])) else Err(InsufficientData)
  {
    hide ParseBatch, Encoded, HeaderOf, ParseSet, Good, Encodable, Signed, BatchSize;
    GoodParts(b, lib.z);
    BatchCut(b, lib.z, lib.castagnoli, n);
    if n > MAGIC_OFFSET {
      MagicTwo(b, lib.z, lib.castagnoli, Encoded(b, lib.z, lib.castagnoli, [])[..n]);
    }
  }

  /** What is left of the batches when only the first n bytes are there. */
  function Left(done: seq<Records>, bs: seq<RecordBatch>, z: Codecs, n: nat): Block
    requires AllEncodable(bs, z)
    decreases |bs|
  {
    if bs == [] || n == 0 then Block(done, false)
    else if n >= BatchSize(bs[0], z) then Left(KeepNext(done, Whole(bs[0])), bs[1..], z, n - BatchSize(bs[0], z))
    else if n >= 61 && |bs[0].records| <= n - 61 then Block(KeepNext(done, DefaultBatch(HeaderOf(bs[0]))), false)
    else Block(done, done == [])
  }

  lemma {:induction false} BlockTruncated(done: seq<Records>, bs: seq<RecordBatch>, lib: Libraries, n: nat)
    requires AllGood(bs, lib.z) && AllEncodable(bs, lib.z) && n <= AllSize(bs, lib.z)
    ensures |EncodedAll(bs, lib.z, lib.castagnoli)| == AllSize(bs, lib.z)
    ensures ParseBlockFrom(done, EncodedAll(bs, lib.z, lib.castagnoli)[..n], lib) == Ok(Left(done, bs, lib.z, n))
    decreases |bs|
  {
    hide ParseRecordsAt, Encoded, BatchSize, Good, Encodable, Whole, HeaderOf, KeepNext, IsPartial;
    AllLength(bs, lib.z, lib.castagnoli);
    var s := EncodedAll(bs, lib.z, lib.castagnoli)[..n];
    if bs == [] || n == 0 {
      assert s == [];
    } else {
      var b, rest := bs[0], EncodedAll(bs[1..], lib.z, lib.castagnoli);
      var size := BatchSize(b, lib.z);
      AllLength(bs[1..], lib.z, lib.castagnoli);
      EncodedTail(b, lib.z, lib.castagnoli, []);
      if n >= size {
        assert s == Encoded(b, lib.z, lib.castagnoli, []) + rest[..n - size];
        WholeParsed(b, lib, rest[..n - size]);
        WholeIs(b, lib.z);
        NotOverflowing(b);
        BlockTruncated(KeepNext(done, Whole(b)), bs[1..], lib, n - size);
      } else {
        assert s == Encoded(b, lib.z, lib.castagnoli, [])[..n];
        CutParsed(b, lib, n);
        HeaderIs(b, lib.z);
      }
    }
  }

  lemma NotOverflowing(b: RecordBatch)
    ensures !IsOverflow(Whole(b))
  {}

  lemma HeaderIs(b: RecordBatch, z: Codecs)
    requires Good(b, z)
    ensures Encodable(b, z) && IsPartial(DefaultBatch(HeaderOf(b))) && NumRecords(DefaultBatch(HeaderOf(b))) == 0
  {}

  // ---------------------------------------------------------------- exactly the whole batches

  /** How many batches lie wholly within the first n bytes. */
  function WholeBatches(bs: seq<RecordBatch>, z: Codecs, n: nat): (k: nat)
    requires AllEncodable(bs, z)
    ensures k <= |bs|
    decreases |bs|
  {
    if bs == [] || n < BatchSize(bs[0], z) then 0 else 1 + WholeBatches(bs[1..], z, n - BatchSize(bs[0], z))
  }

  /** The batches that have records, as they come back. */
  function NotEmpty(bs: seq<RecordBatch>): seq<Records> {
    if bs == [] then []
    else (if bs[0].records != [] then [Whole(bs[0])] else []) + NotEmpty(bs[1..])
  }

  /** Where the cut is, against the sizes of the batches before it. */
  lemma {:induction false} WholeBatchesFit(bs: seq<RecordBatch>, z: Codecs, n: nat)
    requires AllEncodable(bs, z) && n <= AllSize(bs, z)
    ensures var k := WholeBatches(bs, z, n);
            && AllEncodable(bs[..k], z) && AllSize(bs[..k], z) <= n
            && (k < |bs| ==> n < AllSize(bs[..k], z) + BatchSize(bs[k], z))
            && (k == |bs| ==> n == AllSize(bs, z))
    decreases |bs|
  {
    hide BatchSize, Encodable;
    if bs != [] && n >= BatchSize(bs[0], z) {
      WholeBatchesFit(bs[1..], z, n - BatchSize(bs[0], z));
      var k := WholeBatches(bs, z, n);
      assert bs[..k][1..] == bs[1..][..k - 1] && bs[..k][0] == bs[0];
      assert bs[..|bs|] == bs;
    }
  }

  /** A block is partial if it is cut and nothing is whole, and then it has no records; else it is what is whole. */
  ghost predicate Settles(r: Block, whole: seq<Records>, cut: bool) {
    && (BlockIsPartial(r) <==> cut && whole == [])
    && (!BlockIsPartial(r) ==> r.recordsSet == whole)
    && (BlockIsPartial(r) ==> forall i :: 0 <= i < |r.recordsSet| ==> NumRecords(r.recordsSet[i]) == 0)
  }

  ghost predicate NonePartial(done: seq<Records>) {
    forall i :: 0 <= i < |done| ==> !IsPartial(done[i])
  }

  lemma SettledWhole(done: seq<Records>)
    requires NonePartial(done)
    ensures Settles(Block(done, false), done, false)
  {}

  lemma SettledCut(done: seq<Records>, b: RecordBatch, z: Codecs)
    requires NonePartial(done) && Good(b, z)
    ensures Settles(Block(KeepNext(done, DefaultBatch(HeaderOf(b))), false), done, true)
    ensures Settles(Block(done, done == []), done, true)
  {
    hide Good, HeaderOf, IsPartial, NumRecords;
    HeaderIs(b, z);
  }

  lemma NonePartialNext(done: seq<Records>, b: RecordBatch, z: Codecs)
    requires NonePartial(done) && Good(b, z)
    ensures NonePartial(KeepNext(done, Whole(b)))
  {
    hide Good, Whole, IsPartial, NumRecords;
    WholeIs(b, z);
  }

  ghost predicate IsCut(bs: seq<RecordBatch>, z: Codecs, n: nat)
    requires AllEncodable(bs, z)
  {
    var k := WholeBatches(bs, z, n);
    AllEncodable(bs[..k], z) && n > AllSize(bs[..k], z)
  }

  lemma CutNext(bs: seq<RecordBatch>, z: Codecs, n: nat)
    requires AllEncodable(bs, z) && bs != [] && n >= BatchSize(bs[0], z)
    ensures var m := n - BatchSize(bs[0], z);
            var k := WholeBatches(bs, z, n);
            && (IsCut(bs, z, n) <==> IsCut(bs[1..], z, m))
            && k == 1 + WholeBatches(bs[1..], z, m)
            && bs[..k][1..] == bs[1..][..k - 1] && bs[..k][0] == bs[0]
  {
    hide BatchSize, Encodable;
    var k := WholeBatches(bs, z, n);
    assert bs[..k][1..] == bs[1..][..k - 1] && bs[..k][0] == bs[0];
  }

  lemma {:induction false} LeftIs(done: seq<Records>, bs: seq<RecordBatch>, z: Codecs, n: nat)
    requires AllGood(bs, z) && AllEncodable(bs, z) && n <= AllSize(bs, z) && NonePartial(done)
    ensures Settles(Left(done, bs, z, n), done + NotEmpty(bs[..WholeBatches(bs, z, n)]), IsCut(bs, z, n))
    decreases |bs|
  {
    hide BatchSize, Encodable, Whole, HeaderOf, Good, NonePartial, Settles, KeepNext;
    var k := WholeBatches(bs, z, n);
    if bs == [] || n < BatchSize(bs[0], z) {
      NothingWhole(bs, z, n);
      assert done + NotEmpty([]) == done;
      if bs == [] || n == 0 {
        SettledWhole(done);
      } else {
        SettledCut(done, bs[0], z);
      }
    } else {
      var b := bs[0];
      NonePartialNext(done, b, z);
      LeftIs(KeepNext(done, Whole(b)), bs[1..], z, n - BatchSize(b, z));
      GoodSize(b, z);
      CutNext(bs, z, n);
      KeptWhole(done, b, z, NotEmpty(bs[1..][..k - 1]));
    }
  }

  lemma NothingWhole(bs: seq<RecordBatch>, z: Codecs, n: nat)
    requires AllEncodable(bs, z) && (bs == [] || n < BatchSize(bs[0], z)) && n <= AllSize(bs, z)
    ensures WholeBatches(bs, z, n) == 0 && bs[..0] == [] && (IsCut(bs, z, n) <==> n > 0)
  {}

  lemma KeptWhole(done: seq<Records>, b: RecordBatch, z: Codecs, more: seq<Records>)
    requires Good(b, z)
    ensures KeepNext(done, Whole(b)) + more == done + ((if b.records != [] then [Whole(b)] else []) + more)
  {
    WholeIs(b, z);
  }

  /**
    Any prefix of a sequence of encoded batches decodes to exactly the batches that lie wholly within it and
    have records. The block is partial if and only if there is no such batch and the cut is not at the end
    of a batch.
   */
  lemma FetchTruncation(bs: seq<RecordBatch>, lib: Libraries, n: nat)
    requires AllGood(bs, lib.z) && AllEncodable(bs, lib.z) && n <= |EncodedAll(bs, lib.z, lib.castagnoli)|
    ensures var r := ParseBlockFrom([], EncodedAll(bs, lib.z, lib.castagnoli)[..n], lib);
            var k := WholeBatches(bs, lib.z, n);
            && AllEncodable(bs[..k], lib.z) && AllSize(bs[..k], lib.z) <= n
            && (k < |bs| ==> n < AllSize(bs[..k], lib.z) + BatchSize(bs[k], lib.z))
            && r.Ok?
            && (BlockIsPartial(r.value) <==> n > AllSize(bs[..k], lib.z) && NotEmpty(bs[..k]) == [])
            && (!BlockIsPartial(r.value) ==> r.value.recordsSet == NotEmpty(bs[..k]))
            && (BlockIsPartial(r.value) ==>
                  forall i :: 0 <= i < |r.value.recordsSet| ==> NumRecords(r.value.recordsSet[i]) == 0)
  {
    hide ParseBlockFrom, Left, AllGood, BatchSize, NotEmpty, BlockIsPartial, AllSize, EncodedAll, WholeBatches;
    AllLength(bs, lib.z, lib.castagnoli);
    BlockTruncated([], bs, lib, n);
    WholeBatchesFit(bs, lib.z, n);
    LeftIs([], bs, lib.z, n);
    var k := WholeBatches(bs, lib.z, n);
    assert [] + NotEmpty(bs[..k]) == NotEmpty(bs[..k]);
  }

  // ---------------------------------------------------------------- the decode methods

  /** Records that are whole leave the decoder just behind them. */
  method DecodeRecordsAt(rd: RealDecoder, lib: Libraries) returns (r: Result<Records>)
    requires rd.Valid()
    modifies rd
    ensures rd.Valid()
    ensures match ParseRecordsAt(old(rd.Rest()), lib)
            case Err(e) => r == Err(e)
            case Ok(p) => r == Ok(p.0) && (!IsPartial(p.0) && !IsOverflow(p.0) ==> rd.Rest() == p.1)
  {
    hide ParseSet, ParseBatch;
    var magic :- rd.PeekInt8(MAGIC_OFFSET);
    if magic < 2 {
      var ms :- DecodeSet(rd, lib.unwrap, lib.ieee);
      r := Ok(LegacySet(ms));
    } else {
      var b :- DecodeBatch(rd, lib.z, lib.castagnoli);
      r := Ok(DefaultBatch(b));
    }
  }

  method DecodeRecordsSet(rd: RealDecoder, lib: Libraries) returns (r: Result<Block>)
    requires rd.Valid()
    modifies rd
    ensures r == ParseBlockFrom([], old(rd.Rest()), lib)
  {
    hide ParseRecordsAt, NumRecords, IsPartial, IsOverflow;
    var recordsSet: seq<Records> := [];
    ghost var spec := ParseBlockFrom([], rd.Rest(), lib);
    while rd.Remaining() > 0
      invariant rd.Valid()
      invariant spec == ParseBlockFrom(recordsSet, rd.Rest(), lib)
      decreases |rd.Rest()|
    {
      var next := DecodeRecordsAt(rd, lib);
      match next {
        case Err(InsufficientData) => return Ok(Block(recordsSet, |recordsSet| == 0));
        case Err(e) => return Err(e);
        case Ok(records) =>
          var partial := IsPartial(records);
          if NumRecords(records) > 0 || (partial && |recordsSet| == 0) {
            recordsSet := recordsSet + [records];
          }
          if partial || IsOverflow(records) { return Ok(Block(recordsSet, false)); }
      }
    }
    r := Ok(Block(recordsSet, false));
  }
}
