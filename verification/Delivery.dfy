/**
  Where producer, codec and consumer meet. What the decoder keeps of a response that the broker has cut is
  what the consumer walks over; and what is added to a set of the producer is what a consumer is handed.
 */
module Delivery {
  import opened Wrappers
  import opened Wire
  import opened Encoder
  import opened Decoder
  import opened RecordBatches
  import opened BatchCodec
  import opened MessageSets
  import F = FetchBlocks
  import opened Consumer
  import P = ProduceSet

  /** The consumer's view of decoded records; `inner` gives the set that a legacy message wraps. */
  function Unpack(r: F.Records, inner: Message -> Option<seq<MessageBlock>>): Unpacked {
    match r
    case DefaultBatch(b) => Default(b)
    case LegacySet(ms) =>
      Legacy(seq(|ms.messages|, i requires 0 <= i < |ms.messages| =>
                   LegacyBlock(ms.messages[i], inner(ms.messages[i].msg))),
             ms.partialTrailingMessage)
  }

  function UnpackAll(rs: seq<F.Records>, inner: Message -> Option<seq<MessageBlock>>): (us: seq<Unpacked>)
    ensures |us| == |rs|
  {
    if rs == [] then [] else [Unpack(rs[0], inner)] + UnpackAll(rs[1..], inner)
  }

  /** The batches with records, with their times to the millisecond. */
  function Delivered(bs: seq<RecordBatch>): seq<RecordBatch> {
    if bs == [] then []
    else (if bs[0].records != [] then [RoundedBatch(bs[0])] else []) + Delivered(bs[1..])
  }

  lemma {:induction false} DeliveredUnpacked(bs: seq<RecordBatch>, inner: Message -> Option<seq<MessageBlock>>)
    ensures UnpackAll(F.NotEmpty(bs), inner) == Batches(Delivered(bs))
  {
    hide RoundedBatch;
    if bs != [] {
      DeliveredUnpacked(bs[1..], inner);
      var rest := F.NotEmpty(bs[1..]);
      if bs[0].records != [] {
        assert ([F.Whole(bs[0])] + rest)[1..] == rest;
        assert F.NotEmpty(bs) == [F.Whole(bs[0])] + rest;
        var ds := [RoundedBatch(bs[0])] + Delivered(bs[1..]);
        assert Batches(ds) == [Default(RoundedBatch(bs[0]))] + Batches(Delivered(bs[1..]));
      } else {
        assert [] + rest == rest && [] + Delivered(bs[1..]) == Delivered(bs[1..]);
      }
    }
  }

  /**
    Wherever the broker cuts a response, if some batch with records is whole, the consumer hands on exactly
    the visible records of the whole batches, from the awaited offset plus the offsets skipped, in order.
   */
  lemma CutDelivered(bs: seq<RecordBatch>, lib: F.Libraries, n: nat, inner: Message -> Option<seq<MessageBlock>>,
                     level: Isolation, at: seq<AbortedTransaction>, c: int)
    requires F.AllGood(bs, lib.z) && F.AllEncodable(bs, lib.z)
    requires n <= |F.EncodedAll(bs, lib.z, lib.castagnoli)|
    requires var whole := Delivered(bs[..F.WholeBatches(bs, lib.z, n)]);
             whole != [] && WellFormed(whole, at)
    ensures var whole := Delivered(bs[..F.WholeBatches(bs, lib.z, n)]);
            var r := F.ParseBlockFrom([], F.EncodedAll(bs, lib.z, lib.castagnoli)[..n], lib);
            && r.Ok? && !F.BlockIsPartial(r.value)
            && var v := Walk(level, Start(c, at), UnpackAll(r.value.recordsSet, inner));
               && v.Parsed? && Rising(c, v.state.messages, v.state.offset)
               && forall m :: m in v.state.messages <==>
                    m.offset >= c + Skipped(whole, c) && exists k, j :: Shown(level, whole, at, k, j, m)
  {
    hide F.ParseBlockFrom, Walk, Shown, WellFormed, F.AllGood, F.AllEncodable, F.EncodedAll, F.WholeBatches, Rising,
      Skipped;
    var k := F.WholeBatches(bs, lib.z, n);
    F.FetchTruncation(bs, lib, n);
    DeliveredUnpacked(bs[..k], inner);
    ExactlyVisible(level, Delivered(bs[..k]), at, c);
    assert |F.NotEmpty(bs[..k])| == |Delivered(bs[..k])|;
  }

  lemma {:induction false} NoRecordsInside(rs: seq<F.Records>, inner: Message -> Option<seq<MessageBlock>>)
    requires forall i :: 0 <= i < |rs| ==> F.NumRecords(rs[i]) == 0
    ensures CountRecords(UnpackAll(rs, inner)) == 0
  {
    if rs != [] {
      NoRecordsInside(rs[1..], inner);
      assert F.NumRecords(rs[0]) == 0;
    }
  }

  /** Decoder and consumer agree on what a partial block is. */
  lemma PartialAgrees(b: F.Block, inner: Message -> Option<seq<MessageBlock>>, at: seq<AbortedTransaction>)
    ensures Partial(FetchedBlock(0, at, UnpackAll(b.recordsSet, inner), b.partial)) <==> F.BlockIsPartial(b)
  {
    if |b.recordsSet| == 1 {
      assert UnpackAll(b.recordsSet, inner)[0] == Unpack(b.recordsSet[0], inner);
    }
  }

  /**
    If no batch with records is whole, the consumer gets nothing, and it asks for more if and only if the
    broker has cut inside a batch.
   */
  lemma CutAsksForMore(bs: seq<RecordBatch>, lib: F.Libraries, n: nat, inner: Message -> Option<seq<MessageBlock>>,
                       at: seq<AbortedTransaction>)
    requires F.AllGood(bs, lib.z) && F.AllEncodable(bs, lib.z)
    requires n <= |F.EncodedAll(bs, lib.z, lib.castagnoli)|
    requires Delivered(bs[..F.WholeBatches(bs, lib.z, n)]) == []
    ensures var k := F.WholeBatches(bs, lib.z, n);
            var r := F.ParseBlockFrom([], F.EncodedAll(bs, lib.z, lib.castagnoli)[..n], lib);
            && r.Ok? && F.AllEncodable(bs[..k], lib.z)
            && var f := Found(FetchedBlock(0, at, UnpackAll(r.value.recordsSet, inner), r.value.partial));
               !HasRecords(f) && (CutShort(f) <==> n > F.AllSize(bs[..k], lib.z))
  {
    hide F.ParseBlockFrom, F.AllGood, F.AllEncodable, F.EncodedAll, F.WholeBatches, F.AllSize;
    var k := F.WholeBatches(bs, lib.z, n);
    F.FetchTruncation(bs, lib, n);
    DeliveredUnpacked(bs[..k], inner);
    assert |F.NotEmpty(bs[..k])| == |Delivered(bs[..k])|;
    var r := F.ParseBlockFrom([], F.EncodedAll(bs, lib.z, lib.castagnoli)[..n], lib);
    NoRecordsInside(r.value.recordsSet, inner);
    PartialAgrees(r.value, inner, at);
  }

  // ---------------------------------------------------------------- what is produced is consumed

  /** The time to the millisecond that a message keeps: that of the first one, and the difference to it. */
  function SentTime(s: P.PartitionSet, i: nat): int
    requires i < |s.msgs|
  {
    RoundedTime(s.firstTimestamp)
    + TruncDiv(P.Sub(s.msgs[i].timestamp, s.firstTimestamp), MILLISECOND) * MILLISECOND
  }

  lemma {:induction false} RoundedAt(rs: seq<Record>, i: nat)
    requires i < |rs|
    ensures RoundedRecords(rs)[i] == RoundedRecord(rs[i])
  {
    hide RoundedRecord;
    if i > 0 {
      RoundedAt(rs[1..], i - 1);
    }
  }

  /** The batch of a partition is within the types of the wire format. */
  lemma SentTyped(s: P.PartitionSet, codec: int, producerId: int, producerEpoch: int)
    requires P.PartitionOk(s) && |s.msgs| <= MAX_ARRAY_LENGTH && TypedTime(s.firstTimestamp)
    requires 0 <= codec < 8 && Fits(producerId, 8) && Fits(producerEpoch, 2)
    ensures TypedBatch(P.BatchToSend(s, codec, producerId, producerEpoch))
  {
    hide Fits, P.Numbered, P.Estimates;
    FitsZero();
    FitsRange(|s.records| - 1);
    var rs := P.Numbered(s.records);
    forall r | r in rs
      ensures Typed(r)
    {
      var i :| 0 <= i < |rs| && rs[i] == r;
      P.NumberedAt(s.records, i);
      FitsRange(i);
      assert P.Holds(s.records[i], s.msgs[i], s.firstTimestamp);
    }
  }

  /**
    Decoding the batch that is sent for a partition, whatever follows it, gives its messages in order,
    numbered from zero: keys, values and headers as they were, and the times to the millisecond.
   */
  lemma Sent(s: P.PartitionSet, codec: int, producerId: int, producerEpoch: int, z: Codecs, crc: Checksum,
             rest: seq<byte>)
    requires P.PartitionOk(s) && TypedTime(s.firstTimestamp) && |s.msgs| <= MAX_ARRAY_LENGTH
    requires 0 <= codec < 8 && Fits(producerId, 8) && Fits(producerEpoch, 2)
    requires var b := P.BatchToSend(s, codec, producerId, producerEpoch);
             && Encodable(b, z) && Lossless(b, z)
             && |s.msgs| <= |Compress(z, codec, RecordsBytes(b.records)).value| + |rest|
    ensures var b := P.BatchToSend(s, codec, producerId, producerEpoch);
            var r := ParseBatch(Encoded(b, z, crc, rest), z, crc);
            && r.Ok? && r.value.1 == rest
            && var d := r.value.0;
               && |d.records| == |s.msgs| && d.firstTimestamp == RoundedTime(s.firstTimestamp)
               && d.producerId == producerId && d.firstOffset == 0 && !d.control && !d.logAppendTime
               && forall i :: 0 <= i < |s.msgs| ==>
                    && d.records[i].key == s.msgs[i].key && d.records[i].value == s.msgs[i].value
                    && d.records[i].headers == s.msgs[i].headers && d.records[i].offsetDelta == i
                    && d.firstTimestamp + d.records[i].timestampDelta == SentTime(s, i)
  {
    hide Fits, ParseBatch, Encoded, Encodable, Lossless, RecordsBytes, Compress, P.Numbered, TypedBatch, TypedTime,
      RoundedTime, TruncDiv, P.Estimates;
    var b := P.BatchToSend(s, codec, producerId, producerEpoch);
    SentTyped(s, codec, producerId, producerEpoch);
    BatchBack(b, z, crc, rest);
    forall i | 0 <= i < |s.msgs|
      ensures var d := RoundedBatch(b);
              && d.records[i].key == s.msgs[i].key && d.records[i].value == s.msgs[i].value
              && d.records[i].headers == s.msgs[i].headers && d.records[i].offsetDelta == i
              && d.firstTimestamp + d.records[i].timestampDelta == SentTime(s, i)
    {
      P.NumberedAt(s.records, i);
      RoundedAt(b.records, i);
      HeldDelta(s, i);
    }
  }

  lemma HeldDelta(s: P.PartitionSet, i: nat)
    requires P.PartitionOk(s) && i < |s.msgs|
    ensures s.records[i].timestampDelta == P.Sub(s.msgs[i].timestamp, s.firstTimestamp)
    ensures s.records[i].key == s.msgs[i].key && s.records[i].value == s.msgs[i].value
    ensures s.records[i].headers == s.msgs[i].headers
  {
    hide P.Estimates, Fits;
    assert P.Holds(s.records[i], s.msgs[i], s.firstTimestamp);
    FitsRange(s.msgs[i].timestamp - s.firstTimestamp);
  }

  lemma {:induction false} TakenAll(c: int, ms: seq<ConsumerMessage>)
    requires forall i :: 0 <= i < |ms| ==> ms[i].offset == c + i
    ensures Taken(c, ms) == ms
    decreases |ms|
  {
    if ms != [] {
      assert forall i :: 0 <= i < |ms[1..]| ==> ms[1..][i] == ms[i + 1];
      TakenAll(c + 1, ms[1..]);
    }
  }

  /**
    From the producer's set to the consumer. The broker stores the batch that was sent for a partition at
    some offset; a consumer that waits for this offset is handed exactly the messages that were added, in
    order, with consecutive offsets.
   */
  lemma ProducedConsumed(s: P.PartitionSet, codec: int, producerId: int, producerEpoch: int, z: Codecs, crc: Checksum,
                         base: int, level: Isolation)
    requires P.PartitionOk(s) && TypedTime(s.firstTimestamp) && |s.msgs| <= MAX_ARRAY_LENGTH
    requires 0 <= codec < 8 && Fits(producerId, 8) && Fits(producerEpoch, 2)
    requires var b := P.BatchToSend(s, codec, producerId, producerEpoch);
             && Encodable(b, z) && Lossless(b, z)
             && |s.msgs| <= |Compress(z, codec, RecordsBytes(b.records)).value|
    ensures var b := P.BatchToSend(s, codec, producerId, producerEpoch);
            var r := ParseBatch(Encoded(b, z, crc, []), z, crc);
            && r.Ok?
            && var v := Walk(level, Start(base, []), [Default(r.value.0.(firstOffset := base))]);
               && v.Parsed? && |v.state.messages| == |s.msgs|
               && forall i :: 0 <= i < |s.msgs| ==>
                    && v.state.messages[i].key == s.msgs[i].key && v.state.messages[i].value == s.msgs[i].value
                    && v.state.messages[i].headers == s.msgs[i].headers
                    && v.state.messages[i].offset == base + i && v.state.messages[i].timestamp == SentTime(s, i)
  {
    hide Fits, ParseBatch, Encoded, Encodable, Lossless, RecordsBytes, Compress, P.BatchToSend, TypedBatch, TypedTime,
      RoundedTime, P.PartitionOk, SentTime, Walk;
    Sent(s, codec, producerId, producerEpoch, z, crc, []);
    var b := P.BatchToSend(s, codec, producerId, producerEpoch);
    var d := ParseBatch(Encoded(b, z, crc, []), z, crc).value.0;
    var stored := d.(firstOffset := base);
    var ms := FromRecords(stored);
    TakenAll(base, ms);
    WalkOne(level, base, stored);
    forall i | 0 <= i < |s.msgs|
      ensures Carries(ms[i], stored, stored.records[i])
    {}
  }

  /** Without aborted transactions a single batch of data gives what is taken from it. */
  lemma WalkOne(level: Isolation, c: int, b: RecordBatch)
    requires !b.control
    ensures var v := Walk(level, Start(c, []), [Default(b)]);
            v.Parsed? && v.state.messages == Taken(c, FromRecords(b))
  {
    hide Taken, Advanced, FromRecords, LastOffset;
    var s := Start(c, []);
    assert Sorted([]) == [];
    assert Begin(s, LastOffset(b)) == s;
    assert [Default(b)][1..] == [];
    var t := Step(level, s, Default(b));
    assert t.Parsed? && t.state.messages == [] + Taken(c, FromRecords(b));
  }
}
