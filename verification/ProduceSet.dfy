/**
  The set of messages that a broker producer gathers for one request (version 0.11 and later, not
  idempotent): its counters, the limits that a message must not overflow, and the estimate of a record's
  size, which the encoded record never exceeds.
 */
module ProduceSet {
  import opened Wrappers
  import opened Wire
  import opened Encoder
  import opened RecordBatches

  datatype Key = Key(topic: string, partition: int)

  /** What a message puts on the wire. */
  datatype Msg = Msg(at: Key, timestamp: int, key: Option<seq<byte>>, value: Option<seq<byte>>, headers: seq<Header>)

  datatype PartitionSet = PartitionSet(msgs: seq<Msg>, firstTimestamp: int, records: seq<Record>, bufferBytes: int)

  const MAX_VARINT_LEN32 := 5
  const MAXIMUM_RECORD_OVERHEAD := 5 * MAX_VARINT_LEN32 + MAX_VARINT_LEN + 1
  const MAX_DURATION := 0x7fff_ffff_ffff_ffff
  const SAFETY_MARGIN := 10 * 1024

  // ---------------------------------------------------------------- the estimate

  function Len(b: Option<seq<byte>>): nat {
    if b.Some? then |b.value| else 0
  }

  function HeadersSize(hs: seq<Header>): nat {
    if hs == [] then 0 else Len(hs[0].key) + Len(hs[0].value) + 2 * MAX_VARINT_LEN32 + HeadersSize(hs[1..])
  }

  /** byteSize, for records. */
  function ByteSize(m: Msg): nat {
    MAXIMUM_RECORD_OVERHEAD + HeadersSize(m.headers) + Len(m.key) + Len(m.value)
  }

  /** The difference of two times: a 64-bit duration, which saturates. */
  function Sub(t: int, u: int): int {
    if t - u > MAX_DURATION then MAX_DURATION else if t - u < -MAX_DURATION - 1 then -MAX_DURATION - 1 else t - u
  }

  lemma SubFits(t: int, u: int)
    ensures Fits(Sub(t, u), 8)
  {
    FitsRange(Sub(t, u));
  }

  /** What a record holds of a message: key, value, headers, and the time since the first message. */
  predicate Holds(r: Record, m: Msg, firstTimestamp: int) {
    && r.key == m.key && r.value == m.value && r.headers == m.headers && r.attributes == 0
    && Fits(r.timestampDelta, 8)
    && (Fits(m.timestamp - firstTimestamp, 8) ==> r.timestampDelta == m.timestamp - firstTimestamp)
    && (m.timestamp - firstTimestamp > MAX_DURATION ==> r.timestampDelta == MAX_DURATION)
    && (m.timestamp - firstTimestamp < -MAX_DURATION - 1 ==> r.timestampDelta == -MAX_DURATION - 1)
  }

  lemma RecordHolds(m: Msg, firstTimestamp: int)
    ensures Holds(RecordOf(m, firstTimestamp), m, firstTimestamp)
  {
    hide Fits;
    SubFits(m.timestamp, firstTimestamp);
    FitsRange(m.timestamp - firstTimestamp);
  }

  function RecordOf(m: Msg, firstTimestamp: int): Record {
    Record(0, Sub(m.timestamp, firstTimestamp), 0, m.key, m.value, m.headers)
  }

  function Estimate(r: Record): nat {
    MAXIMUM_RECORD_OVERHEAD + HeadersSize(r.headers) + Len(r.key) + Len(r.value)
  }

  function Estimates(rs: seq<Record>): nat {
    if rs == [] then 0 else Estimates(rs[..|rs| - 1]) + Estimate(rs[|rs| - 1])
  }

  function Pow128(w: nat): nat {
    if w == 0 then 1 else 128 * Pow128(w - 1)
  }

  lemma {:induction false} UvarintShort(n: nat, w: nat)
    requires w > 0 && n < Pow128(w)
    ensures |Uvarint(n)| <= w
    decreases n
  {
    if n >= 128 {
      assert Pow128(1) == 128 * Pow128(0);
      UvarintShort(n / 128, w - 1);
    }
  }

  /** Lengths and counts take five bytes at most. */
  lemma VarintShort(n: int)
    requires -1 <= n <= MAX_INT32
    ensures |Varint(n)| <= MAX_VARINT_LEN32
  {
    assert Pow128(5) == 128 * Pow128(4) == 128 * 128 * Pow128(3);
    assert Pow128(3) == 128 * Pow128(2) == 128 * 128 * Pow128(1) == 128 * 128 * 128;
    UvarintShort(ZigZag(n), 5);
  }

  lemma VarintLong(v: int)
    requires Fits(v, 8)
    ensures |Varint(v)| <= MAX_VARINT_LEN
  {
    FitsRange(v);
    Cap64();
    UvarintLength(ZigZag(v), 0);
  }

  lemma BytesShort(b: Option<seq<byte>>)
    requires Len(b) <= MAX_INT32
    ensures |ItemBytes(VarintBytes(b))| <= MAX_VARINT_LEN32 + Len(b)
  {
    hide Varint;
    match b
    case None => VarintShort(-1);
    case Some(s) => VarintShort(|s|);
  }

  lemma {:induction false} HeadersShort(hs: seq<Header>)
    requires HeadersSize(hs) <= MAX_INT32
    ensures |HeadersBytes(hs, [])| <= HeadersSize(hs)
  {
    hide ItemBytes;
    if hs != [] {
      BytesShort(hs[0].key);
      BytesShort(hs[0].value);
      HeadersShort(hs[1..]);
    }
  }

  lemma {:induction false} HeadersCounted(hs: seq<Header>)
    ensures |hs| <= HeadersSize(hs)
  {
    if hs != [] {
      HeadersCounted(hs[1..]);
    }
  }

  /** The encoded record fits its estimate. */
  lemma RecordShort(r: Record)
    requires Estimate(r) <= MAX_INT32 && Fits(r.timestampDelta, 8) && 0 <= r.offsetDelta <= MAX_INT32
    ensures |RecordBytes(r)| <= Estimate(r)
  {
    hide Varint, HeadersBytes, ItemBytes, Fits, EncodeDuration, Be, HeadersSize;
    DurationBack(r.timestampDelta);
    VarintLong(EncodeDuration(r.timestampDelta));
    VarintShort(r.offsetDelta);
    BytesShort(r.key);
    BytesShort(r.value);
    HeadersCounted(r.headers);
    VarintShort(|r.headers|);
    HeadersShort(r.headers);
    VarintShort(|RecordBody(r)|);
  }

  lemma {:induction false} HeadersTight(hs: seq<Header>)
    ensures HeadersSize(hs) <= |HeadersBytes(hs, [])| + 8 * |hs|
  {
    hide ItemBytes;
    if hs != [] {
      BytesTight(hs[0].key);
      BytesTight(hs[0].value);
      HeadersTight(hs[1..]);
    }
  }

  lemma BytesTight(b: Option<seq<byte>>)
    ensures |ItemBytes(VarintBytes(b))| >= 1 + Len(b)
  {
    hide Varint;
    match b
    case None => VarintTight(-1);
    case Some(s) => VarintTight(|s|);
  }

  lemma VarintTight(n: int)
    ensures |Varint(n)| >= 1
  {}

  /** The estimate is not far off: a few bytes for the record and for each header. */
  lemma RecordTight(r: Record)
    ensures Estimate(r) <= |RecordBytes(r)| + 29 + 8 * |r.headers|
  {
    hide Varint, HeadersBytes, ItemBytes, EncodeDuration, Be, HeadersSize;
    VarintTight(EncodeDuration(r.timestampDelta));
    VarintTight(r.offsetDelta);
    BytesTight(r.key);
    BytesTight(r.value);
    VarintTight(|r.headers|);
    HeadersTight(r.headers);
    VarintTight(|RecordBody(r)|);
  }

  /** The records as the request sends them, numbered from zero. */
  function Numbered(rs: seq<Record>): (out: seq<Record>)
    ensures |out| == |rs|
  {
    if rs == [] then [] else Numbered(rs[..|rs| - 1]) + [rs[|rs| - 1].(offsetDelta := |rs| - 1)]
  }

  lemma {:induction false} RecordsAppend(rs: seq<Record>, r: Record)
    ensures RecordsBytes(rs + [r]) == RecordsBytes(rs) + RecordBytes(r)
  {
    hide RecordBytes;
    if rs == [] {
      assert (rs + [r])[1..] == [];
      assert RecordsBytes([r]) == RecordBytes(r) + RecordsBytes([]);
      assert rs + [r] == [r];
    } else {
      RecordsAppend(rs[1..], r);
      assert (rs + [r])[1..] == rs[1..] + [r];
    }
  }

  /** The encoded, uncompressed records of a partition never exceed the estimate. */
  lemma {:induction false} RecordsShort(rs: seq<Record>)
    requires Estimates(rs) <= MAX_INT32
    requires forall i :: 0 <= i < |rs| ==> Fits(rs[i].timestampDelta, 8)
    ensures |RecordsBytes(Numbered(rs))| <= Estimates(rs)
  {
    hide RecordBytes, Estimate, Fits;
    if rs != [] {
      var n := |rs| - 1;
      RecordsShort(rs[..n]);
      EstimatesCount(rs);
      var r := rs[n].(offsetDelta := n);
      RecordsAppend(Numbered(rs[..n]), r);
      assert Estimate(r) == Estimate(rs[n]) by {
        SameEstimate(rs[n], n);
      }
      RecordShort(r);
    }
  }

  lemma SameEstimate(r: Record, i: int)
    ensures Estimate(r.(offsetDelta := i)) == Estimate(r)
  {}

  lemma {:induction false} EstimatesCount(rs: seq<Record>)
    ensures |rs| <= Estimates(rs)
  {
    if rs != [] {
      EstimatesCount(rs[..|rs| - 1]);
    }
  }

  // ---------------------------------------------------------------- sums over partitions

  ghost function Total(m: map<Key, int>): int
    decreases |m|
  {
    if m == map[] then 0
    else
      var k :| k in m;
      Smaller(m, k);
      m[k] + Total(m - {k})
  }

  lemma Smaller(m: map<Key, int>, k: Key)
    requires k in m
    ensures |m - {k}| == |m| - 1
  {
    assert (m - {k}).Keys == m.Keys - {k};
    assert |m.Keys| == |m| && |(m - {k}).Keys| == |m - {k}|;
  }

  /** The sum does not depend on the order in which the partitions are gone through. */
  lemma {:induction false} TotalMinus(m: map<Key, int>, k: Key)
    requires k in m
    ensures Total(m) == m[k] + Total(m - {k})
    decreases |m|
  {
    var j :| j in m && Total(m) == (Smaller(m, j); m[j] + Total(m - {j}));
    if j != k {
      Smaller(m, j);
      Smaller(m, k);
      TotalMinus(m - {j}, k);
      TotalMinus(m - {k}, j);
      assert m - {j} - {k} == m - {k} - {j};
    }
  }

  lemma TotalWith(m: map<Key, int>, k: Key, v: int)
    ensures Total(m[k := v]) == Total(m) + v - (if k in m then m[k] else 0)
  {
    TotalMinus(m[k := v], k);
    if k in m {
      TotalMinus(m, k);
      assert m[k := v] - {k} == m - {k};
    } else {
      assert m[k := v] - {k} == m;
    }
  }

  function Sizes(sets: map<Key, PartitionSet>): map<Key, int> {
    map k | k in sets :: sets[k].bufferBytes
  }

  function Counts(sets: map<Key, PartitionSet>): map<Key, int> {
    map k | k in sets :: |sets[k].msgs|
  }

  // ---------------------------------------------------------------- the set

  /** A partition's records are those of its messages, and its size is their estimate. */
  ghost predicate PartitionOk(s: PartitionSet) {
    && |s.msgs| == |s.records| >= 1 && s.firstTimestamp == s.msgs[0].timestamp
    && s.bufferBytes == RECORD_BATCH_OVERHEAD + Estimates(s.records)
    && forall i :: 0 <= i < |s.msgs| ==> Holds(s.records[i], s.msgs[i], s.firstTimestamp)
  }

  /** The encoded records of a partition, with the overhead of their batch, fit what was counted for them. */
  lemma EncodedFits(s: PartitionSet)
    requires PartitionOk(s) && s.bufferBytes <= MAX_INT32
    ensures RECORD_BATCH_OVERHEAD + |RecordsBytes(Numbered(s.records))| <= s.bufferBytes
  {
    hide Fits, RecordsBytes, Numbered, Estimates;
    RecordsShort(s.records);
  }

  // ---------------------------------------------------------------- the request

  /** The batch of a partition as the request sends it. */
  function BatchToSend(s: PartitionSet, codec: int, producerId: int, producerEpoch: int): RecordBatch {
    RecordBatch(0, 0, 2, codec, false, false, false, |s.records| - 1, s.firstTimestamp, ZERO_TIME, producerId,
                producerEpoch, 0, Numbered(s.records), false)
  }

  lemma {:induction false} NumberedAt(rs: seq<Record>, i: nat)
    requires i < |rs|
    ensures Numbered(rs)[i] == rs[i].(offsetDelta := i)
  {
    if i < |rs| - 1 {
      NumberedAt(rs[..|rs| - 1], i);
    }
  }

  /** The loop that numbers the records of a batch. */
  method BuildBatch(s: PartitionSet, codec: int, producerId: int, producerEpoch: int) returns (b: RecordBatch)
    requires s.records != []
    ensures b == BatchToSend(s, codec, producerId, producerEpoch)
    ensures |b.records| == |s.records| && b.lastOffsetDelta == |s.records| - 1
    ensures forall i :: 0 <= i < |s.records| ==>
              b.records[i].offsetDelta == i && b.records[i].(offsetDelta := 0) == s.records[i].(offsetDelta := 0)
  {
    var records := s.records;
    for i := 0 to |records|
      invariant |records| == |s.records|
      invariant forall k :: 0 <= k < i ==> records[k] == s.records[k].(offsetDelta := k)
      invariant forall k :: i <= k < |records| ==> records[k] == s.records[k]
    {
      records := records[i := records[i].(offsetDelta := i)];
    }
    forall i | 0 <= i < |records|
      ensures Numbered(s.records)[i] == records[i]
    {
      NumberedAt(s.records, i);
    }
    b := RecordBatch(0, 0, 2, codec, false, false, false, |records| - 1, s.firstTimestamp, ZERO_TIME, producerId,
                     producerEpoch, 0, records, false);
  }

  /** The messages held for a partition. */
  function MessagesOf(sets: map<Key, PartitionSet>, k: Key): seq<Msg> {
    if k in sets then sets[k].msgs else []
  }

  class Set {
    const maxMessageBytes: int
    const maxMessages: int
    var msgs: map<Key, PartitionSet>
    var bufferBytes: int
    var bufferCount: int

    /** The counters are the sums over the partitions. */
    ghost predicate Valid()
      reads this
    {
      && bufferBytes == Total(Sizes(msgs)) && bufferCount == Total(Counts(msgs))
      && forall k :: k in msgs ==> PartitionOk(msgs[k])
    }

    /** A partition holds one message or stays below the size of a batch, and no limit of the request is passed. */
    ghost predicate Bounded()
      reads this
    {
      && (forall k :: k in msgs ==> |msgs[k].msgs| == 1 || msgs[k].bufferBytes < maxMessageBytes)
      && (maxMessages > 0 ==> bufferCount <= maxMessages)
      && (bufferCount <= 1 || bufferBytes < MAX_REQUEST_SIZE - SAFETY_MARGIN + RECORD_BATCH_OVERHEAD)
    }

    constructor (maxMessageBytes: int, maxMessages: int)
      ensures this.maxMessageBytes == maxMessageBytes && this.maxMessages == maxMessages
      ensures Valid() && Bounded() && msgs == map[] && bufferCount == 0
    {
      this.maxMessageBytes := maxMessageBytes;
      this.maxMessages := maxMessages;
      msgs := map[];
      bufferBytes, bufferCount := 0, 0;
      new;
      assert Sizes(msgs) == map[] && Counts(msgs) == map[];
    }

    predicate WouldOverflow(m: Msg)
      reads this
    {
      || bufferBytes + ByteSize(m) >= MAX_REQUEST_SIZE - SAFETY_MARGIN
      || (m.at in msgs && msgs[m.at].bufferBytes + ByteSize(m) >= maxMessageBytes)
      || (maxMessages > 0 && bufferCount >= maxMessages)
    }

    /** The counters count what the partitions hold. */
    method Add(m: Msg)
      requires Valid()
      modifies this
      ensures Valid() && m.at in msgs
      ensures msgs - {m.at} == old(msgs) - {m.at}
      ensures bufferCount == old(bufferCount) + 1
      ensures if m.at in old(msgs) then
                && bufferBytes == old(bufferBytes) + ByteSize(m)
                && msgs[m.at].msgs == old(msgs)[m.at].msgs + [m]
                && msgs[m.at].bufferBytes == old(msgs)[m.at].bufferBytes + ByteSize(m)
              else
                && bufferBytes == old(bufferBytes) + RECORD_BATCH_OVERHEAD + ByteSize(m)
                && msgs[m.at].msgs == [m] && msgs[m.at].firstTimestamp == m.timestamp
      ensures var p := msgs[m.at];
              && 0 < |p.records| == |p.msgs| && Holds(p.records[|p.records| - 1], m, p.firstTimestamp)
              && p.records[..|p.records| - 1] == if m.at in old(msgs) then old(msgs)[m.at].records else []
      ensures var extra := if m.at in old(msgs) then 0 else RECORD_BATCH_OVERHEAD;
              old(WouldOverflow(m)) <==>
              || bufferBytes - extra >= MAX_REQUEST_SIZE - SAFETY_MARGIN
              || (m.at in old(msgs) && msgs[m.at].bufferBytes >= maxMessageBytes)
              || (maxMessages > 0 && bufferCount > maxMessages)
    {
      hide Estimate, HeadersSize, Estimates, Total, Sizes, Counts, PartitionOk, Holds, ByteSize, Fits;
      var size := 0;
      var pset := PartitionSet([], m.timestamp, [], 0);
      if m.at in msgs {
        pset := msgs[m.at];
        OkNotEmpty(pset);
      } else {
        size := RECORD_BATCH_OVERHEAD;
      }
      var rec := Record(0, Sub(m.timestamp, pset.firstTimestamp), 0, m.key, m.value, m.headers);
      RecordHolds(m, pset.firstTimestamp);
      size := size + ByteSize(m);
      SizeIsEstimate(m, pset.firstTimestamp);
      var after := PartitionSet(pset.msgs + [m], pset.firstTimestamp, pset.records + [rec], pset.bufferBytes + size);
      AppendOk(pset, m, after);
      SumsWith(msgs, m.at, after);
      msgs := msgs[m.at := after];
      bufferBytes := bufferBytes + size;
      bufferCount := bufferCount + 1;
    }

    method DropPartition(k: Key) returns (dropped: seq<Msg>)
      requires Valid()
      modifies this
      ensures Valid() && msgs == old(msgs) - {k}
      ensures dropped == MessagesOf(old(msgs), k)
      ensures bufferCount == old(bufferCount) - |dropped| && bufferBytes <= old(bufferBytes)
    {
      hide Total, Sizes, Counts, PartitionOk;
      if k !in msgs {
        assert msgs - {k} == msgs;
        return [];
      }
      var pset := msgs[k];
      OkNotEmpty(pset);
      SumsWithout(msgs, k);
      bufferBytes := bufferBytes - pset.bufferBytes;
      bufferCount := bufferCount - |pset.msgs|;
      msgs := msgs - {k};
      dropped := pset.msgs;
    }

    /** A message that would not overflow the set leaves it within its limits, and so does any message alone. */
    method AddBounded(m: Msg)
      requires Valid() && Bounded() && (msgs == map[] || !WouldOverflow(m))
      modifies this
      ensures Valid() && Bounded() && m.at in msgs && msgs - {m.at} == old(msgs) - {m.at}
      ensures msgs[m.at].msgs == MessagesOf(old(msgs), m.at) + [m]
    {
      hide PartitionOk, ByteSize;
      if msgs == map[] {
        assert Counts(msgs) == map[];
      }
      Add(m);
      forall k | k in msgs && k != m.at
        ensures k in old(msgs) && msgs[k] == old(msgs)[k]
      {
        assert k in msgs - {m.at} && k in old(msgs) - {m.at};
      }
    }

    method DropBounded(k: Key) returns (dropped: seq<Msg>)
      requires Valid() && Bounded()
      modifies this
      ensures Valid() && Bounded() && dropped == MessagesOf(old(msgs), k) && msgs == old(msgs) - {k}
    {
      hide PartitionOk;
      dropped := DropPartition(k);
    }
  }

  /** One message more for a partition, or the first. */
  lemma AppendOk(s: PartitionSet, m: Msg, after: PartitionSet)
    requires PartitionOk(s) || s == PartitionSet([], m.timestamp, [], 0)
    requires after.msgs == s.msgs + [m] && after.firstTimestamp == s.firstTimestamp
    requires after.records == s.records + [RecordOf(m, s.firstTimestamp)]
    requires after.bufferBytes == s.bufferBytes + ByteSize(m) + if s.msgs == [] then RECORD_BATCH_OVERHEAD else 0
    ensures PartitionOk(after)
  {
    hide Estimate, HeadersSize, RecordOf, Holds;
    SizeIsEstimate(m, s.firstTimestamp);
    RecordHolds(m, s.firstTimestamp);
    assert after.records[..|s.records|] == s.records;
    assert Estimates(after.records) == Estimates(s.records) + Estimate(RecordOf(m, s.firstTimestamp));
    forall i | 0 <= i < |after.msgs|
      ensures Holds(after.records[i], after.msgs[i], after.firstTimestamp)
    {
      if i < |s.msgs| {
        assert Holds(s.records[i], s.msgs[i], s.firstTimestamp);
      }
    }
  }

  lemma OkNotEmpty(s: PartitionSet)
    requires PartitionOk(s)
    ensures s.msgs != [] && s.bufferBytes >= 0 && |s.records| == |s.msgs|
  {}

  lemma SumsWith(sets: map<Key, PartitionSet>, k: Key, after: PartitionSet)
    ensures var b := if k in sets then sets[k].bufferBytes else 0;
            Total(Sizes(sets[k := after])) == Total(Sizes(sets)) + after.bufferBytes - b
    ensures var n := if k in sets then |sets[k].msgs| else 0;
            Total(Counts(sets[k := after])) == Total(Counts(sets)) + |after.msgs| - n
  {
    hide Total;
    TotalWith(Sizes(sets), k, after.bufferBytes);
    TotalWith(Counts(sets), k, |after.msgs|);
    assert Sizes(sets[k := after]) == Sizes(sets)[k := after.bufferBytes];
    assert Counts(sets[k := after]) == Counts(sets)[k := |after.msgs|];
  }

  lemma SumsWithout(sets: map<Key, PartitionSet>, k: Key)
    requires k in sets
    ensures Total(Sizes(sets - {k})) == Total(Sizes(sets)) - sets[k].bufferBytes
    ensures Total(Counts(sets - {k})) == Total(Counts(sets)) - |sets[k].msgs|
  {
    hide Total;
    TotalMinus(Sizes(sets), k);
    TotalMinus(Counts(sets), k);
    assert Sizes(sets - {k}) == Sizes(sets) - {k} && Counts(sets - {k}) == Counts(sets) - {k};
  }

  lemma SizeIsEstimate(m: Msg, first: int)
    ensures ByteSize(m) == Estimate(RecordOf(m, first))
  {}

  /** The size limit of the dispatcher. */
  predicate Admitted(m: Msg, maxMessageBytes: int) {
    ByteSize(m) <= maxMessageBytes
  }

  /**
    A set within its limits, of messages that the dispatcher admits: the batch of a partition, encoded
    without compression, exceeds the limit of a message at most by its own overhead.
   */
  lemma BatchWithinLimit(s: Set, k: Key)
    requires s.Valid() && s.Bounded() && k in s.msgs && s.maxMessageBytes <= MAX_INT32 - RECORD_BATCH_OVERHEAD
    requires forall m :: m in s.msgs[k].msgs ==> Admitted(m, s.maxMessageBytes)
    ensures s.msgs[k].bufferBytes <= s.maxMessageBytes + RECORD_BATCH_OVERHEAD
    ensures |RecordsBytes(Numbered(s.msgs[k].records))| <= s.maxMessageBytes
  {
    hide Total, Sizes, Counts, RecordsBytes, Numbered, ByteSize, Estimate;
    var p := s.msgs[k];
    if |p.msgs| == 1 {
      OneRecord(p);
    }
    EncodedFits(p);
  }

  lemma OneRecord(p: PartitionSet)
    requires PartitionOk(p) && |p.msgs| == 1
    ensures p.bufferBytes == RECORD_BATCH_OVERHEAD + ByteSize(p.msgs[0]) && p.msgs[0] in p.msgs
  {
    HeldEstimate(p.records[0], p.msgs[0], p.firstTimestamp);
    assert Estimates(p.records[..0]) == 0;
  }

  lemma HeldEstimate(r: Record, m: Msg, firstTimestamp: int)
    requires Holds(r, m, firstTimestamp)
    ensures Estimate(r) == ByteSize(m)
  {}

  // ---------------------------------------------------------------- making room

  /**
    A response that comes in while a message waits: the partitions that it makes the broker producer drop,
    whether the connection is lost, which empties the set, and whether the waiting message must be retried.
   */
  datatype Answer = Answer(drops: seq<Key>, lost: bool, retry: bool)

  /** What waiting comes to: the message joins the set, or a new one after the set has been sent, or is retried. */
  datatype Waited = Joined | Sent(full: Set) | Retried

  function Dropped(sets: map<Key, PartitionSet>, keys: seq<Key>): map<Key, PartitionSet> {
    if keys == [] then sets else Dropped(sets, keys[..|keys| - 1]) - {keys[|keys| - 1]}
  }

  /** What a set holds after some answers. */
  function Answered(sets: map<Key, PartitionSet>, answers: seq<Answer>): map<Key, PartitionSet> {
    if answers == [] then sets
    else
      var a := answers[|answers| - 1];
      if a.lost then map[] else Dropped(Answered(sets, answers[..|answers| - 1]), a.drops)
  }

  /** Answers only take whole partitions away. */
  lemma {:induction false} DroppedOnly(sets: map<Key, PartitionSet>, keys: seq<Key>, k: Key)
    ensures var r := Dropped(sets, keys);
            (k in r <==> k in sets && k !in keys) && (k in r ==> r[k] == sets[k])
  {
    if keys != [] {
      var n := |keys| - 1;
      DroppedOnly(sets, keys[..n], k);
      assert keys == keys[..n] + [keys[n]];
    }
  }

  lemma {:induction false} AnsweredOnly(sets: map<Key, PartitionSet>, answers: seq<Answer>, k: Key)
    ensures var r := Answered(sets, answers);
            && (k in r <==> k in sets && forall a :: a in answers ==> !a.lost && k !in a.drops)
            && (k in r ==> r[k] == sets[k])
  {
    hide Dropped;
    if answers != [] {
      var n := |answers| - 1;
      var a := answers[n];
      AnsweredOnly(sets, answers[..n], k);
      assert forall x :: x in answers <==> x == a || x in answers[..n];
      DroppedOnly(Answered(sets, answers[..n]), a.drops, k);
    }
  }

  /** One answer: the partitions that have failed are dropped, or the whole set if the connection is lost. */
  method HandleAnswer(buffer: Set, a: Answer) returns (current: Set)
    requires buffer.Valid() && buffer.Bounded()
    modifies buffer
    ensures current.Valid() && current.Bounded() && (current == buffer || fresh(current))
    ensures current.maxMessageBytes == buffer.maxMessageBytes && current.maxMessages == buffer.maxMessages
    ensures current.msgs == if a.lost then map[] else Dropped(old(buffer.msgs), a.drops)
  {
    hide PartitionOk, Total, Sizes, Counts;
    if a.lost {
      current := new Set(buffer.maxMessageBytes, buffer.maxMessages);
      return;
    }
    current := buffer;
    for i := 0 to |a.drops|
      invariant current.Valid() && current.Bounded()
      invariant current.msgs == Dropped(old(buffer.msgs), a.drops[..i])
    {
      assert a.drops[..i + 1][..i] == a.drops[..i];
      var _ := current.DropBounded(a.drops[i]);
    }
    assert a.drops[..|a.drops|] == a.drops;
    if current.msgs == map[] {
      current := new Set(buffer.maxMessageBytes, buffer.maxMessages);
    }
  }

  /**
    Waits until the message fits, is to be retried, or the set has been sent. The answers are those that
    come in before the broker takes the set; `used` of them are handled.
   */
  method WaitForSpace(buffer: Set, m: Msg, answers: seq<Answer>) returns (current: Set, r: Waited, used: nat)
    requires buffer.Valid() && buffer.Bounded()
    modifies buffer
    ensures current.Valid() && current.Bounded() && used <= |answers|
    ensures current == buffer || fresh(current)
    ensures current.maxMessageBytes == buffer.maxMessageBytes && current.maxMessages == buffer.maxMessages
    ensures forall i :: 0 <= i < used - 1 ==> !answers[i].retry
    ensures match r
            case Joined =>
              && used > 0 && !answers[used - 1].retry && !current.WouldOverflow(m)
              && current.msgs == Answered(old(buffer.msgs), answers[..used])
            case Sent(full) =>
              && used == |answers| && (used > 0 ==> !answers[used - 1].retry) && fresh(current) && full != current
              && full.Valid() && full.Bounded()
              && full.msgs == Answered(old(buffer.msgs), answers) && current.msgs == map[]
            case Retried =>
              && used > 0 && answers[used - 1].retry
              && current.msgs == Answered(old(buffer.msgs), answers[..used])
  {
    hide PartitionOk, Total, Sizes, Counts, Dropped, ByteSize;
    current, used := buffer, 0;
    while used < |answers|
      invariant used <= |answers| && current.Valid() && current.Bounded()
      invariant current == buffer || fresh(current)
      invariant current.maxMessageBytes == buffer.maxMessageBytes && current.maxMessages == buffer.maxMessages
      invariant current.msgs == Answered(old(buffer.msgs), answers[..used])
      invariant forall i :: 0 <= i < used ==> !answers[i].retry
    {
      assert answers[..used + 1][..used] == answers[..used];
      current := HandleAnswer(current, answers[used]);
      used := used + 1;
      if answers[used - 1].retry { return current, Retried, used; }
      if !current.WouldOverflow(m) { return current, Joined, used; }
    }
    assert answers[..|answers|] == answers;
    r := Sent(current);
    current := new Set(buffer.maxMessageBytes, buffer.maxMessages);
  }

  /**
    What a broker producer does with a message. The limits are kept for the set that goes on and for one
    that is sent; the message is behind those that its partition still holds, or alone in a new set.
   */
  method Accept(buffer: Set, m: Msg, answers: seq<Answer>) returns (current: Set, r: Waited, used: nat)
    requires buffer.Valid() && buffer.Bounded()
    modifies buffer
    ensures current.Valid() && current.Bounded() && used <= |answers|
    ensures used > 0 || r.Sent? ==> old(buffer.WouldOverflow(m))
    ensures old(buffer.WouldOverflow(m)) ==> used > 0 || r.Sent?
    ensures forall i :: 0 <= i < used ==> (answers[i].retry <==> r.Retried? && i == used - 1)
    ensures var held := Answered(old(buffer.msgs), answers[..used]);
            match r
            case Joined =>
              && m.at in current.msgs && current.msgs - {m.at} == held - {m.at}
              && current.msgs[m.at].msgs == MessagesOf(held, m.at) + [m]
            case Sent(full) =>
              && used == |answers| && full.msgs == held && full.Valid() && full.Bounded()
              && current.msgs.Keys == {m.at} && current.msgs[m.at].msgs == [m]
            case Retried => current.msgs == held
  {
    hide PartitionOk, Total, Sizes, Counts, Dropped, ByteSize;
    current, r, used := buffer, Joined, 0;
    if buffer.WouldOverflow(m) {
      current, r, used := WaitForSpace(buffer, m, answers);
    }
    assert answers[..|answers|] == answers;
    if r.Retried? { return; }
    current.AddBounded(m);
    if r.Sent? {
      OnlyKey(current.msgs, m.at);
    }
  }

  lemma OnlyKey(sets: map<Key, PartitionSet>, k: Key)
    requires k in sets && sets - {k} == map[] - {k}
    ensures sets.Keys == {k}
  {
    forall x | x in sets.Keys
      ensures x == k
    {
      assert x != k ==> x in sets - {k};
    }
  }
}
