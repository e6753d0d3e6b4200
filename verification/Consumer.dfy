/**
  How a partition consumer reads a fetch response: the messages it hands on, the offset it moves
  to, and the filter that hides aborted transactions from a ReadCommitted consumer.
 */
module Consumer {
  import opened Wrappers
  import opened Wire
  import opened Decoder
  import opened RecordBatches
  import opened MessageSets

  datatype ConsumerMessage = ConsumerMessage(
    offset: int,
    timestamp: int,
    blockTimestamp: int,
    key: Option<seq<byte>>,
    value: Option<seq<byte>>,
    headers: seq<Header>)

  /** A legacy block, which may wrap a set of its own. */
  datatype LegacyBlock = LegacyBlock(block: MessageBlock, wrapped: Option<seq<MessageBlock>>)

  /** Decoded records, with the sets that legacy messages wrap. */
  datatype Unpacked =
    | Legacy(blocks: seq<LegacyBlock>, partialTrailingMessage: bool)
    | Default(batch: RecordBatch)

  datatype AbortedTransaction = AbortedTransaction(producerId: int, firstOffset: int)

  datatype FetchedBlock =
    FetchedBlock(err: int, aborted: seq<AbortedTransaction>, recordsSet: seq<Unpacked>, partial: bool)

  datatype ConsumeError = IncompleteResponse | BrokerError(code: int) | BrokenControlRecord

  datatype Isolation = ReadUncommitted | ReadCommitted

  // ---------------------------------------------------------------- candidates

  function LastOffset(b: RecordBatch): int {
    b.firstOffset + b.lastOffsetDelta
  }

  /** What a message says of its record, field by field. */
  predicate Carries(m: ConsumerMessage, b: RecordBatch, r: Record) {
    && m.key == r.key && m.value == r.value && m.headers == r.headers
    && m.offset - b.firstOffset == r.offsetDelta
    && (b.logAppendTime ==> m.timestamp == b.maxTimestamp)
    && (!b.logAppendTime ==> m.timestamp - b.firstTimestamp == r.timestampDelta)
    && m.blockTimestamp == ZERO_TIME
  }

  function FromRecord(b: RecordBatch, r: Record): (m: ConsumerMessage)
    ensures Carries(m, b, r)
  {
    ConsumerMessage(b.firstOffset + r.offsetDelta,
                    if b.logAppendTime then b.maxTimestamp else b.firstTimestamp + r.timestampDelta,
                    ZERO_TIME, r.key, r.value, r.headers)
  }

  function FromRecords(b: RecordBatch): (ms: seq<ConsumerMessage>)
    ensures |ms| == |b.records|
  {
    seq(|b.records|, i requires 0 <= i < |b.records| => FromRecord(b, b.records[i]))
  }

  function Inner(l: LegacyBlock): seq<MessageBlock> {
    match l.wrapped
    case Some(ms) => ms
    case None => [l.block]
  }

  /** What a message says of the legacy message it comes from, but for the offset. */
  predicate CarriesLegacy(c: ConsumerMessage, l: LegacyBlock, m: MessageBlock) {
    && c.key == m.msg.key && c.value == m.msg.value && c.headers == []
    && c.blockTimestamp == l.block.msg.timestamp
    && c.timestamp == (if m.msg.version >= 1 && m.msg.logAppendTime then l.block.msg else m.msg).timestamp
  }

  /** Since version 1 the offsets of wrapped messages count up to the offset of the wrapper. */
  function FromMessage(l: LegacyBlock, m: MessageBlock): (c: ConsumerMessage)
    requires Inner(l) != []
    ensures CarriesLegacy(c, l, m) && (m.msg.version < 1 ==> c.offset == m.offset)
  {
    var inner := Inner(l);
    var base := l.block.offset - inner[|inner| - 1].offset;
    ConsumerMessage(if m.msg.version >= 1 then m.offset + base else m.offset,
                    if m.msg.version >= 1 && m.msg.logAppendTime then l.block.msg.timestamp else m.msg.timestamp,
                    l.block.msg.timestamp, m.msg.key, m.msg.value, [])
  }

  function FromBlock(l: LegacyBlock): (ms: seq<ConsumerMessage>)
    ensures |ms| == |Inner(l)|
  {
    seq(|Inner(l)|, i requires 0 <= i < |Inner(l)| => FromMessage(l, Inner(l)[i]))
  }

  /**
    The offsets of wrapped messages of version 1: the last is that of the wrapper, and they lie as far apart
    as inside. A message that is not wrapped keeps its own.
   */
  lemma WrappedOffsets(l: LegacyBlock, i: nat, j: nat)
    requires i <= j < |Inner(l)| && forall k :: 0 <= k < |Inner(l)| ==> Inner(l)[k].msg.version >= 1
    ensures FromBlock(l)[|Inner(l)| - 1].offset == l.block.offset
    ensures FromBlock(l)[j].offset - FromBlock(l)[i].offset == Inner(l)[j].offset - Inner(l)[i].offset
  {}

  function FromBlocks(ls: seq<LegacyBlock>): seq<ConsumerMessage> {
    if ls == [] then [] else FromBlock(ls[0]) + FromBlocks(ls[1..])
  }

  // ---------------------------------------------------------------- offsets

  /** The messages taken from a list of candidates by a consumer that waits for offset c. */
  function Taken(c: int, ms: seq<ConsumerMessage>): seq<ConsumerMessage>
    decreases |ms|
  {
    if ms == [] then []
    else if ms[0].offset < c then Taken(c, ms[1..])
    else [ms[0]] + Taken(ms[0].offset + 1, ms[1..])
  }

  function After(c: int, ms: seq<ConsumerMessage>): int
    decreases |ms|
  {
    if ms == [] then c
    else if ms[0].offset < c then After(c, ms[1..])
    else After(ms[0].offset + 1, ms[1..])
  }

  /** A list that gives nothing makes the consumer skip an offset. */
  function Advanced(c: int, ms: seq<ConsumerMessage>): int {
    if Taken(c, ms) == [] then c + 1 else After(c, ms)
  }

  lemma {:induction false} TakenSplit(c: int, xs: seq<ConsumerMessage>, ys: seq<ConsumerMessage>)
    ensures Taken(c, xs + ys) == Taken(c, xs) + Taken(After(c, xs), ys)
    ensures After(c, xs + ys) == After(After(c, xs), ys)
    decreases |xs|
  {
    if xs == [] {
      assert xs + ys == ys;
    } else {
      assert (xs + ys)[1..] == xs[1..] + ys;
      TakenSplit(if xs[0].offset < c then c else xs[0].offset + 1, xs[1..], ys);
    }
  }

  // ---------------------------------------------------------------- control records

  datatype ControlType = Abort | Commit | Unknown

  function ControlRecord(r: Record): Result<ControlType> {
    var value := if r.value.Some? then r.value.value else [];
    var key := if r.key.Some? then r.key.value else [];
    var (_, v1) :- GetInt(value, 2);
    var (_, v2) :- GetInt(v1, 4);
    var (_, k1) :- GetInt(key, 2);
    var (kind, k2) :- GetInt(k1, 2);
    Ok(if kind == 0 then Abort else if kind == 1 then Commit else Unknown)
  }

  /** Whatever follows the fields: zero is an abort, one a commit, and anything else is ignored. */
  lemma ControlRead(version: int, epoch: int, kind: int, k: seq<byte>, v: seq<byte>, r: Record)
    requires Fits(version, 2) && Fits(epoch, 4) && Fits(kind, 2)
    requires r.key == Some(Be(version, 2) + (Be(kind, 2) + k)) && r.value == Some(Be(version, 2) + (Be(epoch, 4) + v))
    ensures ControlRecord(r) == Ok(match kind case 0 => Abort case 1 => Commit case _ => Unknown)
  {
    hide GetInt, Fits, Be;
    IntBack(version, 2, Be(epoch, 4) + v);
    IntBack(epoch, 4, v);
    IntBack(version, 2, Be(kind, 2) + k);
    IntBack(kind, 2, k);
  }

  function ControlOf(b: RecordBatch): Option<ControlType> {
    if b.records == [] then None
    else
      match ControlRecord(b.records[0])
      case Ok(t) => Some(t)
      case Err(_) => None
  }

  // ---------------------------------------------------------------- the walk over a block

  datatype State = State(
    offset: int,
    aborted: set<int>,
    pending: seq<AbortedTransaction>,
    messages: seq<ConsumerMessage>)

  datatype Verdict = Parsed(state: State) | Broken(offset: int)

  /** Transactions that begin up to `last` leave the list and enter the set. */
  function Begin(s: State, last: int): State
    decreases |s.pending|
  {
    if s.pending == [] || s.pending[0].firstOffset > last then s
    else Begin(s.(aborted := s.aborted + {s.pending[0].producerId}, pending := s.pending[1..]), last)
  }

  function StepBatch(level: Isolation, s: State, b: RecordBatch): Verdict {
    var begun := Begin(s, LastOffset(b));
    var ms := FromRecords(b);
    var moved := begun.(offset := Advanced(s.offset, ms));
    if b.control then
      match ControlOf(b)
      case None => Broken(moved.offset)
      case Some(Abort) => Parsed(moved.(aborted := moved.aborted - {b.producerId}))
      case Some(_) => Parsed(moved)
    else if level.ReadCommitted? && b.isTransactional && b.producerId in moved.aborted then Parsed(moved)
    else Parsed(moved.(messages := moved.messages + Taken(s.offset, ms)))
  }

  function Step(level: Isolation, s: State, r: Unpacked): Verdict {
    match r
    case Legacy(blocks, _) =>
      var ms := FromBlocks(blocks);
      Parsed(s.(offset := Advanced(s.offset, ms), messages := s.messages + Taken(s.offset, ms)))
    case Default(b) => StepBatch(level, s, b)
  }

  function Walk(level: Isolation, s: State, rs: seq<Unpacked>): Verdict
    decreases |rs|
  {
    if rs == [] then Parsed(s)
    else
      match Step(level, s, rs[0])
      case Broken(o) => Broken(o)
      case Parsed(t) => Walk(level, t, rs[1..])
  }

  // ---------------------------------------------------------------- every response

  /** Strictly rising offsets from `lo` up to, not including, `hi`. */
  ghost predicate Rising(lo: int, ms: seq<ConsumerMessage>, hi: int) {
    && lo <= hi
    && (forall i :: 0 <= i < |ms| ==> lo <= ms[i].offset < hi)
    && (forall i, j :: 0 <= i < j < |ms| ==> ms[i].offset < ms[j].offset)
  }

  lemma RisingJoin(lo: int, xs: seq<ConsumerMessage>, mid: int, ys: seq<ConsumerMessage>, hi: int)
    requires Rising(lo, xs, mid) && Rising(mid, ys, hi)
    ensures Rising(lo, xs + ys, hi)
  {}

  lemma {:induction false} TakenRises(c: int, ms: seq<ConsumerMessage>)
    ensures Rising(c, Taken(c, ms), After(c, ms))
    decreases |ms|
  {
    if ms != [] {
      if ms[0].offset < c {
        TakenRises(c, ms[1..]);
      } else {
        var next := ms[0].offset + 1;
        TakenRises(next, ms[1..]);
        assert Rising(c, [ms[0]], next);
        RisingJoin(c, [ms[0]], next, Taken(next, ms[1..]), After(next, ms[1..]));
      }
    }
  }

  lemma AdvancedRises(c: int, ms: seq<ConsumerMessage>)
    ensures Rising(c, Taken(c, ms), Advanced(c, ms)) && Advanced(c, ms) > c
  {
    TakenRises(c, ms);
    assert Taken(c, ms) != [] ==> c <= Taken(c, ms)[0].offset < After(c, ms);
  }

  lemma {:induction false} BeginKeeps(s: State, last: int)
    ensures Begin(s, last).offset == s.offset && Begin(s, last).messages == s.messages
    decreases |s.pending|
  {
    if s.pending != [] && s.pending[0].firstOffset <= last {
      BeginKeeps(s.(aborted := s.aborted + {s.pending[0].producerId}, pending := s.pending[1..]), last);
    }
  }

  /**
    Whatever the response holds, in whatever order: what is handed on has strictly rising offsets
    from the starting offset on, and the consumer ends past all of it.
   */
  lemma {:induction false} WalkRises(level: Isolation, lo: int, s: State, rs: seq<Unpacked>)
    requires Rising(lo, s.messages, s.offset)
    ensures match Walk(level, s, rs)
            case Parsed(t) => Rising(lo, t.messages, t.offset) && s.offset + |rs| <= t.offset
            case Broken(o) => s.offset < o
    decreases |rs|
  {
    if rs != [] {
      hide Taken, Advanced, Begin, FromBlocks, FromRecords, ControlOf;
      StepRises(level, lo, s, rs[0]);
      match Step(level, s, rs[0])
      case Broken(o) =>
      case Parsed(t) => WalkRises(level, lo, t, rs[1..]);
    }
  }

  lemma StepRises(level: Isolation, lo: int, s: State, r: Unpacked)
    requires Rising(lo, s.messages, s.offset)
    ensures match Step(level, s, r)
            case Parsed(t) => Rising(lo, t.messages, t.offset) && s.offset < t.offset
            case Broken(o) => s.offset < o
  {
    hide Taken, Advanced, Begin, FromBlocks, FromRecords, ControlOf, LastOffset;
    match r {
      case Legacy(blocks, _) =>
        var ms := FromBlocks(blocks);
        AdvancedRises(s.offset, ms);
        RisingJoin(lo, s.messages, s.offset, Taken(s.offset, ms), Advanced(s.offset, ms));
      case Default(b) =>
        var ms := FromRecords(b);
        BeginKeeps(s, LastOffset(b));
        AdvancedRises(s.offset, ms);
        RisingJoin(lo, s.messages, s.offset, Taken(s.offset, ms), Advanced(s.offset, ms));
        RisingJoin(lo, s.messages, s.offset, [], Advanced(s.offset, ms));
        assert s.messages + [] == s.messages;
    }
  }

  // ---------------------------------------------------------------- record batches of a partition

  function OffsetAt(b: RecordBatch, i: nat): int
    requires i < |b.records|
  {
    b.firstOffset + b.records[i].offsetDelta
  }

  function LastRecord(b: RecordBatch): int
    requires b.records != []
  {
    OffsetAt(b, |b.records| - 1)
  }

  /** Offsets rise within the range that the batch declares. */
  ghost predicate BatchOk(b: RecordBatch) {
    && b.records != []
    && (forall i :: 0 <= i < |b.records| ==> b.firstOffset <= OffsetAt(b, i) <= LastOffset(b))
    && (forall i, j :: 0 <= i < j < |b.records| ==> OffsetAt(b, i) < OffsetAt(b, j))
    && (b.control ==> ControlOf(b).Some?)
  }

  /** A listed transaction that begins inside the response begins with a batch of data. */
  predicate BeginsOk(b: RecordBatch, t: AbortedTransaction) {
    b.firstOffset <= t.firstOffset <= LastOffset(b) ==> t.firstOffset == b.firstOffset && !b.control
  }

  ghost predicate WellFormed(bs: seq<RecordBatch>, at: seq<AbortedTransaction>) {
    && (forall i :: 0 <= i < |bs| ==> BatchOk(bs[i]))
    && (forall i, j :: 0 <= i < j < |bs| ==> LastOffset(bs[i]) < bs[j].firstOffset)
    && (forall i, t :: 0 <= i < |bs| && t in at ==> BeginsOk(bs[i], t))
  }

  predicate AbortMarker(b: RecordBatch, producer: int) {
    b.control && ControlOf(b) == Some(Abort) && b.producerId == producer
  }

  /** The transaction is ended by an abort marker before the offset. */
  ghost predicate EndedBefore(bs: seq<RecordBatch>, t: AbortedTransaction, offset: int) {
    exists i :: 0 <= i < |bs| && AbortMarker(bs[i], t.producerId)
             && t.firstOffset < bs[i].firstOffset && LastOffset(bs[i]) < offset
  }

  /** The offset lies in an aborted transaction of the producer. */
  ghost predicate InAborted(bs: seq<RecordBatch>, at: seq<AbortedTransaction>, producer: int, offset: int) {
    exists t :: t in at && t.producerId == producer && t.firstOffset <= offset && !EndedBefore(bs, t, offset)
  }

  ghost predicate Hidden(level: Isolation, bs: seq<RecordBatch>, at: seq<AbortedTransaction>, b: RecordBatch,
                         offset: int) {
    b.control || (level.ReadCommitted? && b.isTransactional && InAborted(bs, at, b.producerId, offset))
  }

  /** The messages of one batch that a consumer should see from an offset on. */
  ghost function VisibleIn(level: Isolation, bs: seq<RecordBatch>, at: seq<AbortedTransaction>, b: RecordBatch,
                           from: int, ms: seq<ConsumerMessage>): seq<ConsumerMessage> {
    if ms == [] then []
    else
      var rest := VisibleIn(level, bs, at, b, from, ms[1..]);
      if ms[0].offset < from || Hidden(level, bs, at, b, ms[0].offset) then rest else [ms[0]] + rest
  }

  /** The messages that a consumer should see from an offset on, in batches i and later. */
  ghost function Visible(level: Isolation, bs: seq<RecordBatch>, at: seq<AbortedTransaction>, from: int, i: nat)
    : seq<ConsumerMessage>
    requires i <= |bs|
    decreases |bs| - i
  {
    if i == |bs| then []
    else VisibleIn(level, bs, at, bs[i], from, FromRecords(bs[i])) + Visible(level, bs, at, from, i + 1)
  }

  // ---------------------------------------------------------------- which producers are aborted

  ghost predicate Ordered(at: seq<AbortedTransaction>) {
    forall i, j :: 0 <= i < j < |at| ==> at[i].firstOffset <= at[j].firstOffset
  }

  /** The batches before i have reached the offset. */
  predicate Reached(bs: seq<RecordBatch>, i: nat, offset: int)
    requires i <= |bs|
  {
    i > 0 && offset <= LastOffset(bs[i - 1])
  }

  ghost predicate MarkedSince(bs: seq<RecordBatch>, i: nat, t: AbortedTransaction)
    requires i <= |bs|
  {
    exists m :: 0 <= m < i && AbortMarker(bs[m], t.producerId) && t.firstOffset <= LastOffset(bs[m])
  }

  ghost predicate Open(bs: seq<RecordBatch>, at: seq<AbortedTransaction>, i: nat, producer: int)
    requires i <= |bs|
  {
    exists t :: t in at && t.producerId == producer && Reached(bs, i, t.firstOffset) && !MarkedSince(bs, i, t)
  }

  /** Before batch i, the set holds the producers with an open aborted transaction. */
  ghost predicate Tracks(bs: seq<RecordBatch>, at: seq<AbortedTransaction>, i: nat, aborted: set<int>,
                         pending: seq<AbortedTransaction>)
    requires i <= |bs|
  {
    && Ordered(pending)
    && (forall t :: t in pending <==> t in at && !Reached(bs, i, t.firstOffset))
    && (forall p :: p in aborted <==> Open(bs, at, i, p))
  }

  lemma {:induction false} BeginMoves(s: State, last: int)
    requires Ordered(s.pending)
    ensures var t := Begin(s, last);
            && Ordered(t.pending)
            && (forall x :: x in t.pending <==> x in s.pending && x.firstOffset > last)
            && (forall p :: p in t.aborted <==>
                  p in s.aborted || exists x :: x in s.pending && x.firstOffset <= last && x.producerId == p)
    decreases |s.pending|
  {
    if s.pending != [] && s.pending[0].firstOffset <= last {
      var x := s.pending[0];
      var u := s.(aborted := s.aborted + {x.producerId}, pending := s.pending[1..]);
      BeginMoves(u, last);
      assert forall y :: y in s.pending <==> y == x || y in u.pending;
    } else if s.pending != [] {
      assert forall x :: x in s.pending ==> x.firstOffset >= s.pending[0].firstOffset;
    }
  }

  /** At batch i, when the transactions that begin up to its end have entered the set. */
  ghost predicate OpenAt(bs: seq<RecordBatch>, at: seq<AbortedTransaction>, i: nat, producer: int)
    requires i < |bs|
  {
    exists t :: t in at && t.producerId == producer && t.firstOffset <= LastOffset(bs[i]) && !MarkedSince(bs, i, t)
  }

  lemma RangesRise(bs: seq<RecordBatch>, at: seq<AbortedTransaction>, i: nat, j: nat)
    requires WellFormed(bs, at) && i < j < |bs|
    ensures bs[i].firstOffset <= LastOffset(bs[i]) < bs[j].firstOffset <= LastOffset(bs[j])
  {
    hide LastOffset, OffsetAt, ControlOf, BeginsOk;
    assert BatchOk(bs[i]) && BatchOk(bs[j]);
    assert bs[i].firstOffset <= OffsetAt(bs[i], 0) <= LastOffset(bs[i]);
    assert bs[j].firstOffset <= OffsetAt(bs[j], 0) <= LastOffset(bs[j]);
  }

  /** No marker precedes a transaction that no batch has reached. */
  lemma NotYetMarked(bs: seq<RecordBatch>, at: seq<AbortedTransaction>, i: nat, t: AbortedTransaction)
    requires WellFormed(bs, at) && i <= |bs| && !Reached(bs, i, t.firstOffset)
    ensures !MarkedSince(bs, i, t)
  {
    hide LastOffset, AbortMarker, WellFormed;
    forall m | 0 <= m < i
      ensures LastOffset(bs[m]) < t.firstOffset
    {
      if m < i - 1 {
        RangesRise(bs, at, m, i - 1);
      }
    }
  }

  lemma TracksBegin(bs: seq<RecordBatch>, at: seq<AbortedTransaction>, i: nat, s: State)
    requires WellFormed(bs, at) && i < |bs| && Tracks(bs, at, i, s.aborted, s.pending)
    ensures var u := Begin(s, LastOffset(bs[i]));
            && Ordered(u.pending)
            && (forall t :: t in u.pending <==> t in at && !Reached(bs, i + 1, t.firstOffset))
            && (forall p :: p in u.aborted <==> OpenAt(bs, at, i, p))
  {
    hide LastOffset, AbortMarker, WellFormed, Begin, MarkedSince, Ordered;
    var last := LastOffset(bs[i]);
    var u := Begin(s, last);
    BeginMoves(s, last);
    if i > 0 {
      RangesRise(bs, at, i - 1, i);
    }
    forall t | t in s.pending
      ensures !MarkedSince(bs, i, t)
    {
      NotYetMarked(bs, at, i, t);
    }
    forall p
      ensures p in u.aborted <==> OpenAt(bs, at, i, p)
    {
      if OpenAt(bs, at, i, p) {
        var t :| t in at && t.producerId == p && t.firstOffset <= last && !MarkedSince(bs, i, t);
        if Reached(bs, i, t.firstOffset) {
          assert Open(bs, at, i, p);
        } else {
          assert t in s.pending;
        }
      }
    }
  }

  /** The set answers for every record of the batch whether it lies in an aborted transaction. */
  lemma OpenIsAborted(bs: seq<RecordBatch>, at: seq<AbortedTransaction>, i: nat, p: int, offset: int)
    requires WellFormed(bs, at) && i < |bs| && !bs[i].control
    requires bs[i].firstOffset <= offset <= LastOffset(bs[i])
    ensures OpenAt(bs, at, i, p) <==> InAborted(bs, at, p, offset)
  {
    hide LastOffset, ControlOf;
    forall t | t in at
      ensures t.firstOffset <= LastOffset(bs[i]) && !MarkedSince(bs, i, t)
              <==> t.firstOffset <= offset && !EndedBefore(bs, t, offset)
    {
      OneTransaction(bs, at, i, t, offset);
    }
  }

  lemma OneTransaction(bs: seq<RecordBatch>, at: seq<AbortedTransaction>, i: nat, t: AbortedTransaction, offset: int)
    requires WellFormed(bs, at) && i < |bs| && !bs[i].control && t in at
    requires bs[i].firstOffset <= offset <= LastOffset(bs[i])
    ensures t.firstOffset <= LastOffset(bs[i]) && !MarkedSince(bs, i, t)
            <==> t.firstOffset <= offset && !EndedBefore(bs, t, offset)
  {
    hide LastOffset, ControlOf, BatchOk;
    assert BeginsOk(bs[i], t);
    forall m | 0 <= m < |bs| && AbortMarker(bs[m], t.producerId)
      ensures m < i && t.firstOffset <= LastOffset(bs[m])
              <==> t.firstOffset < bs[m].firstOffset && LastOffset(bs[m]) < offset
    {
      assert BeginsOk(bs[m], t);
      if m < i {
        RangesRise(bs, at, m, i);
      } else if m > i {
        RangesRise(bs, at, i, m);
      }
    }
  }

  /** An abort marker closes what its producer has open; nothing else does. */
  lemma TracksEnd(bs: seq<RecordBatch>, at: seq<AbortedTransaction>, i: nat, aborted: set<int>,
                  pending: seq<AbortedTransaction>, after: set<int>)
    requires i < |bs| && Ordered(pending)
    requires forall t :: t in pending <==> t in at && !Reached(bs, i + 1, t.firstOffset)
    requires forall p :: p in aborted <==> OpenAt(bs, at, i, p)
    requires after == if AbortMarker(bs[i], bs[i].producerId) then aborted - {bs[i].producerId} else aborted
    ensures Tracks(bs, at, i + 1, after, pending)
  {
    hide LastOffset, ControlOf, Ordered;
    forall p
      ensures p in after <==> Open(bs, at, i + 1, p)
    {
      forall t | t in at && t.producerId == p
        ensures MarkedSince(bs, i + 1, t) <==>
                MarkedSince(bs, i, t) || (AbortMarker(bs[i], p) && t.firstOffset <= LastOffset(bs[i]))
      {}
    }
  }

  // ---------------------------------------------------------------- how far the consumer skips

  /** Batches at the front that end below the offset waited for each move it by one. */
  function Skipped(bs: seq<RecordBatch>, c: int): (n: nat)
    ensures n <= |bs|
    decreases |bs|
  {
    if bs == [] || bs[0].records == [] || LastRecord(bs[0]) >= c then 0 else 1 + Skipped(bs[1..], c + 1)
  }

  lemma {:induction false} SkippedMeans(bs: seq<RecordBatch>, c: int)
    requires forall i :: 0 <= i < |bs| ==> bs[i].records != []
    ensures var n := Skipped(bs, c);
            && (forall i :: 0 <= i < n ==> LastRecord(bs[i]) < c + i)
            && (n < |bs| ==> LastRecord(bs[n]) >= c + n)
    decreases |bs|
  {
    hide LastRecord;
    if bs != [] && LastRecord(bs[0]) < c {
      SkippedMeans(bs[1..], c + 1);
      var n := Skipped(bs, c);
      forall i | 0 <= i < n
        ensures LastRecord(bs[i]) < c + i
      {
        if i > 0 {
          assert bs[i] == bs[1..][i - 1];
        }
      }
    }
  }

  /** Where the consumer stands before batch i. */
  ghost predicate Stands(bs: seq<RecordBatch>, c: int, skipped: nat, i: nat, offset: int)
    requires i <= |bs| && forall k :: 0 <= k < |bs| ==> bs[k].records != []
  {
    if i <= skipped then offset == c + i else offset == LastRecord(bs[i - 1]) + 1
  }

  /** With rising offsets, what is taken is what is not below. */
  function NotBelow(c: int, ms: seq<ConsumerMessage>): seq<ConsumerMessage> {
    if ms == [] then []
    else if ms[0].offset < c then NotBelow(c, ms[1..])
    else [ms[0]] + NotBelow(c, ms[1..])
  }

  ghost predicate Ascending(ms: seq<ConsumerMessage>) {
    forall i, j :: 0 <= i < j < |ms| ==> ms[i].offset < ms[j].offset
  }

  lemma {:induction false} TakenAscending(c: int, ms: seq<ConsumerMessage>)
    requires Ascending(ms)
    ensures Taken(c, ms) == NotBelow(c, ms)
    ensures ms != [] && ms[|ms| - 1].offset >= c ==> After(c, ms) == ms[|ms| - 1].offset + 1 && Taken(c, ms) != []
    ensures ms == [] || ms[|ms| - 1].offset < c ==> Taken(c, ms) == []
    decreases |ms|
  {
    if ms != [] {
      var next := if ms[0].offset < c then c else ms[0].offset + 1;
      TakenAscending(next, ms[1..]);
      if ms[0].offset >= c {
        SameNotBelow(c, next, ms[1..]);
        if |ms| > 1 {
          assert ms[0].offset < ms[|ms| - 1].offset;
        }
      } else if |ms| > 1 {
        assert ms[1..][|ms| - 2] == ms[|ms| - 1];
      }
    }
  }

  /** Two bounds with no message between them select the same. */
  lemma {:induction false} SameNotBelow(c: int, d: int, ms: seq<ConsumerMessage>)
    requires forall i :: 0 <= i < |ms| ==> (ms[i].offset < c <==> ms[i].offset < d)
    ensures NotBelow(c, ms) == NotBelow(d, ms)
  {
    if ms != [] {
      SameNotBelow(c, d, ms[1..]);
    }
  }

  lemma RecordsAscend(b: RecordBatch)
    requires BatchOk(b)
    ensures Ascending(FromRecords(b))
    ensures forall i :: 0 <= i < |b.records| ==> b.firstOffset <= FromRecords(b)[i].offset <= LastOffset(b)
    ensures FromRecords(b)[|b.records| - 1].offset == LastRecord(b)
  {
    hide ControlOf, LastOffset;
    forall i | 0 <= i < |b.records|
      ensures FromRecords(b)[i].offset == OffsetAt(b, i)
    {}
  }

  lemma BatchTaken(bs: seq<RecordBatch>, at: seq<AbortedTransaction>, c: int, i: nat, offset: int)
    requires WellFormed(bs, at) && i < |bs|
    requires Stands(bs, c, Skipped(bs, c), i, offset)
    ensures Taken(offset, FromRecords(bs[i])) == NotBelow(c + Skipped(bs, c), FromRecords(bs[i]))
    ensures Stands(bs, c, Skipped(bs, c), i + 1, Advanced(offset, FromRecords(bs[i])))
  {
    hide LastRecord, LastOffset, FromRecords, Skipped, ControlOf, BeginsOk, Taken, After, NotBelow;
    var n, ms := Skipped(bs, c), FromRecords(bs[i]);
    assert BatchOk(bs[i]);
    RecordsAscend(bs[i]);
    SkippedMeans(bs, c);
    TakenAscending(offset, ms);
    if i < n {
      TakenAscending(c + n, ms);
    } else if i > n {
      RecordsAscend(bs[n]);
      RecordsAscend(bs[i - 1]);
      RangesRise(bs, at, n, i);
      RangesRise(bs, at, i - 1, i);
      SameNotBelow(offset, c + n, ms);
    }
  }

  lemma {:induction false} VisibleAlike(level: Isolation, bs: seq<RecordBatch>, at: seq<AbortedTransaction>,
                                        b: RecordBatch, from: int, ms: seq<ConsumerMessage>, hidden: bool)
    requires forall i :: 0 <= i < |ms| ==> Hidden(level, bs, at, b, ms[i].offset) == hidden
    ensures VisibleIn(level, bs, at, b, from, ms) == if hidden then [] else NotBelow(from, ms)
  {
    hide Hidden;
    if ms != [] {
      VisibleAlike(level, bs, at, b, from, ms[1..], hidden);
    }
  }

  /** One batch: the messages handed on are the visible ones, and the set stays right. */
  lemma StepExact(level: Isolation, bs: seq<RecordBatch>, at: seq<AbortedTransaction>, c: int, i: nat, s: State)
    requires WellFormed(bs, at) && i < |bs|
    requires Tracks(bs, at, i, s.aborted, s.pending) && Stands(bs, c, Skipped(bs, c), i, s.offset)
    ensures var v := StepBatch(level, s, bs[i]);
            && v.Parsed?
            && Tracks(bs, at, i + 1, v.state.aborted, v.state.pending)
            && Stands(bs, c, Skipped(bs, c), i + 1, v.state.offset)
            && v.state.messages ==
               s.messages + VisibleIn(level, bs, at, bs[i], c + Skipped(bs, c), FromRecords(bs[i]))
  {
    hide LastOffset, FromRecords, Skipped, ControlOf, Taken, After, NotBelow, Begin, Stands, VisibleIn, WellFormed, Open,
      OpenAt, InAborted, Advanced, Reached;
    BatchFine(bs, at, i);
    var b, from := bs[i], c + Skipped(bs, c);
    var ms := FromRecords(b);
    var begun := Begin(s, LastOffset(b));
    BeginKeeps(s, LastOffset(b));
    TracksBegin(bs, at, i, s);
    BatchTaken(bs, at, c, i, s.offset);
    var after := if AbortMarker(b, b.producerId) then begun.aborted - {b.producerId} else begun.aborted;
    TracksEnd(bs, at, i, begun.aborted, begun.pending, after);
    RecordsAscend(b);
    var hidden := b.control || (level.ReadCommitted? && b.isTransactional && b.producerId in begun.aborted);
    forall k | 0 <= k < |ms|
      ensures Hidden(level, bs, at, b, ms[k].offset) == hidden
    {
      if !b.control {
        OpenIsAborted(bs, at, i, b.producerId, ms[k].offset);
      }
    }
    VisibleAlike(level, bs, at, b, from, ms, hidden);
    assert s.messages + [] == s.messages;
  }

  lemma BatchFine(bs: seq<RecordBatch>, at: seq<AbortedTransaction>, i: nat)
    requires WellFormed(bs, at) && i < |bs|
    ensures BatchOk(bs[i]) && forall k :: 0 <= k < |bs| ==> bs[k].records != []
  {}

  function Batches(bs: seq<RecordBatch>): (rs: seq<Unpacked>)
    ensures |rs| == |bs|
  {
    seq(|bs|, i requires 0 <= i < |bs| => Default(bs[i]))
  }

  lemma {:induction false} WalkExact(level: Isolation, bs: seq<RecordBatch>, at: seq<AbortedTransaction>, c: int,
                                     i: nat, s: State)
    requires WellFormed(bs, at) && i <= |bs|
    requires Tracks(bs, at, i, s.aborted, s.pending) && Stands(bs, c, Skipped(bs, c), i, s.offset)
    ensures var v := Walk(level, s, Batches(bs)[i..]);
            && v.Parsed?
            && v.state.messages == s.messages + Visible(level, bs, at, c + Skipped(bs, c), i)
            && Stands(bs, c, Skipped(bs, c), |bs|, v.state.offset)
    decreases |bs| - i
  {
    hide StepBatch, Skipped, Stands, Tracks, VisibleIn, WellFormed;
    var rs := Batches(bs)[i..];
    if i == |bs| {
      assert s.messages + [] == s.messages;
    } else {
      assert rs[0] == Default(bs[i]) && rs[1..] == Batches(bs)[i + 1..];
      StepExact(level, bs, at, c, i, s);
      WalkExact(level, bs, at, c, i + 1, StepBatch(level, s, bs[i]).state);
    }
  }

  // ---------------------------------------------------------------- the order of the abort list

  function Insert(t: AbortedTransaction, at: seq<AbortedTransaction>): seq<AbortedTransaction> {
    if at == [] || t.firstOffset <= at[0].firstOffset then [t] + at else [at[0]] + Insert(t, at[1..])
  }

  /** getAbortedTransactions: in the order of their first offsets. */
  function Sorted(at: seq<AbortedTransaction>): seq<AbortedTransaction> {
    if at == [] then [] else Insert(at[0], Sorted(at[1..]))
  }

  lemma {:induction false} InsertMembers(t: AbortedTransaction, at: seq<AbortedTransaction>)
    ensures multiset(Insert(t, at)) == multiset(at) + multiset{t}
  {
    if at != [] && t.firstOffset > at[0].firstOffset {
      InsertMembers(t, at[1..]);
      assert at == [at[0]] + at[1..];
    }
  }

  lemma {:induction false} InsertOrdered(t: AbortedTransaction, at: seq<AbortedTransaction>)
    requires Ordered(at)
    ensures Ordered(Insert(t, at))
  {
    if at != [] && t.firstOffset > at[0].firstOffset {
      InsertOrdered(t, at[1..]);
      var rest := Insert(t, at[1..]);
      InsertMembers(t, at[1..]);
      forall i | 0 <= i < |rest|
        ensures rest[i].firstOffset >= at[0].firstOffset
      {
        assert rest[i] in multiset(rest);
        assert rest[i] == t || rest[i] in at[1..];
      }
    }
  }

  lemma {:induction false} SortedOrdered(at: seq<AbortedTransaction>)
    ensures Ordered(Sorted(at)) && multiset(Sorted(at)) == multiset(at)
  {
    hide Insert, Ordered;
    if at == [] {
      assert Ordered([]) by {
        EmptyOrdered();
      }
    } else {
      SortedOrdered(at[1..]);
      InsertOrdered(at[0], Sorted(at[1..]));
      InsertMembers(at[0], Sorted(at[1..]));
      assert at == [at[0]] + at[1..];
    }
  }

  lemma EmptyOrdered()
    ensures Ordered([])
  {}

  lemma StartTracks(bs: seq<RecordBatch>, at: seq<AbortedTransaction>)
    ensures Tracks(bs, at, 0, {}, Sorted(at))
  {
    hide Sorted, Ordered;
    SortedOrdered(at);
    forall t
      ensures t in Sorted(at) <==> t in at
    {
      assert t in multiset(Sorted(at)) <==> t in multiset(at);
    }
  }

  // ---------------------------------------------------------------- exactly the visible messages

  /** m comes from record j of batch k, and should be seen. */
  ghost predicate Shown(level: Isolation, bs: seq<RecordBatch>, at: seq<AbortedTransaction>, k: nat, j: nat,
                        m: ConsumerMessage) {
    && k < |bs| && j < |bs[k].records|
    && Carries(m, bs[k], bs[k].records[j])
    && !Hidden(level, bs, at, bs[k], m.offset)
  }

  lemma {:induction false} VisibleInMembers(level: Isolation, bs: seq<RecordBatch>, at: seq<AbortedTransaction>,
                                            b: RecordBatch, from: int, ms: seq<ConsumerMessage>, m: ConsumerMessage)
    ensures m in VisibleIn(level, bs, at, b, from, ms) <==>
            m in ms && m.offset >= from && !Hidden(level, bs, at, b, m.offset)
  {
    hide Hidden;
    if ms != [] {
      VisibleInMembers(level, bs, at, b, from, ms[1..], m);
    }
  }

  lemma {:induction false} VisibleMembers(level: Isolation, bs: seq<RecordBatch>, at: seq<AbortedTransaction>,
                                          from: int, i: nat, m: ConsumerMessage)
    requires i <= |bs|
    ensures m in Visible(level, bs, at, from, i) <==>
            m.offset >= from && exists k, j :: i <= k && Shown(level, bs, at, k, j, m)
    decreases |bs| - i
  {
    hide Hidden, VisibleIn;
    if i < |bs| {
      VisibleMembers(level, bs, at, from, i + 1, m);
      var ms := FromRecords(bs[i]);
      VisibleInMembers(level, bs, at, bs[i], from, ms, m);
      if m in ms && !Hidden(level, bs, at, bs[i], m.offset) {
        var j :| 0 <= j < |ms| && ms[j] == m;
        assert Shown(level, bs, at, i, j, m);
      }
      forall k: nat, j: nat | i <= k && Shown(level, bs, at, k, j, m)
        ensures (k == i && m in ms) || i + 1 <= k
      {
        if k == i {
          CarriesOne(ms[j], m, bs[i], bs[i].records[j]);
        }
      }
    }
  }

  /** The fields determine the message. */
  lemma CarriesOne(m: ConsumerMessage, c: ConsumerMessage, b: RecordBatch, r: Record)
    requires Carries(m, b, r) && Carries(c, b, r)
    ensures m == c
  {}

  function Start(c: int, at: seq<AbortedTransaction>): State {
    State(c, {}, Sorted(at), [])
  }

  /**
    The messages handed on for well-formed batches are exactly the records that are not control
    records and, for ReadCommitted, lie in no aborted transaction, from the starting offset on, except
    that every leading batch that ends below the offset waited for has moved that offset by one. They
    come in strictly rising order, and the consumer ends past all of them.
   */
  lemma ExactlyVisible(level: Isolation, bs: seq<RecordBatch>, at: seq<AbortedTransaction>, c: int)
    requires WellFormed(bs, at)
    ensures var v := Walk(level, Start(c, at), Batches(bs));
            && v.Parsed?
            && Rising(c, v.state.messages, v.state.offset)
            && forall m :: m in v.state.messages <==>
                 m.offset >= c + Skipped(bs, c) && exists k, j :: Shown(level, bs, at, k, j, m)
  {
    hide Walk, Skipped, WellFormed, Stands, Tracks, Visible, Shown, Hidden, Sorted;
    Finish(level, bs, at, c);
    WalkRises(level, c, Start(c, at), Batches(bs));
    forall m
      ensures m in Visible(level, bs, at, c + Skipped(bs, c), 0) <==>
              m.offset >= c + Skipped(bs, c) && exists k, j :: Shown(level, bs, at, k, j, m)
    {
      VisibleMembers(level, bs, at, c + Skipped(bs, c), 0, m);
      assert forall k: nat, j: nat :: 0 <= k && Shown(level, bs, at, k, j, m) <==> Shown(level, bs, at, k, j, m);
    }
  }

  lemma Finish(level: Isolation, bs: seq<RecordBatch>, at: seq<AbortedTransaction>, c: int)
    requires WellFormed(bs, at)
    ensures var v := Walk(level, Start(c, at), Batches(bs));
            && v.Parsed? && v.state.messages == Visible(level, bs, at, c + Skipped(bs, c), 0)
  {
    hide Walk, Skipped, WellFormed, Tracks, Visible, Sorted;
    StartTracks(bs, at);
    assert forall k :: 0 <= k < |bs| ==> bs[k].records != [] by {
      if bs != [] {
        BatchFine(bs, at, 0);
      }
    }
    WalkExact(level, bs, at, c, 0, Start(c, at));
    assert Batches(bs)[0..] == Batches(bs);
  }

  /** Nothing is lost if and only if no record that should be seen is among the offsets skipped. */
  lemma LostIffSkipped(level: Isolation, bs: seq<RecordBatch>, at: seq<AbortedTransaction>, c: int)
    requires WellFormed(bs, at)
    ensures var v := Walk(level, Start(c, at), Batches(bs));
            v.Parsed? &&
            ((forall k: nat, j: nat, m :: Shown(level, bs, at, k, j, m) && m.offset >= c ==> m in v.state.messages)
             <==>
             (forall k: nat, j: nat, m :: Shown(level, bs, at, k, j, m) ==> !(c <= m.offset < c + Skipped(bs, c))))
  {
    hide Walk, Skipped, WellFormed, Shown;
    ExactlyVisible(level, bs, at, c);
  }

  /** The usual response begins with the batch that holds the starting offset, and then nothing is skipped. */
  lemma SkipsNothing(bs: seq<RecordBatch>, c: int)
    requires forall i :: 0 <= i < |bs| ==> bs[i].records != []
    ensures Skipped(bs, c) == 0 <==> bs == [] || LastRecord(bs[0]) >= c
  {}

  function OneRecord(offset: int): RecordBatch {
    RecordBatch(offset, 0, 2, 0, false, false, false, 0, 0, 0, 0, 0, 0, [Record(0, 0, 0, None, None, [])], false)
  }

  /** Waiting for offset 10 and given a batch that ends at 9, the consumer passes over record 10. */
  lemma SkipCanLose(level: Isolation)
    ensures var bs := [OneRecord(9), OneRecord(10)];
            && WellFormed(bs, [])
            && Shown(level, bs, [], 1, 0, FromRecord(OneRecord(10), OneRecord(10).records[0]))
            && Walk(level, Start(10, []), Batches(bs)) == Parsed(State(12, {}, [], []))
  {
    var bs := [OneRecord(9), OneRecord(10)];
    var rs := Batches(bs);
    var m9, m10 := FromRecords(bs[0]), FromRecords(bs[1]);
    assert m9[1..] == [] && m10[1..] == [];
    assert rs[0] == Default(bs[0]) && rs[1..][0] == Default(bs[1]) && rs[1..][1..] == [];
    assert Taken(10, m9) == [] && Taken(11, m10) == [];
    assert Step(level, Start(10, []), rs[0]) == Parsed(State(11, {}, [], []));
    assert Step(level, State(11, {}, [], []), rs[1]) == Parsed(State(12, {}, [], []));
    assert Walk(level, State(12, {}, [], []), []) == Parsed(State(12, {}, [], []));
  }

  // ---------------------------------------------------------------- the partition consumer

  function CountRecords(rs: seq<Unpacked>): nat {
    if rs == [] then 0
    else (match rs[0] case Legacy(blocks, _) => |blocks| case Default(b) => |b.records|) + CountRecords(rs[1..])
  }

  function Partial(b: FetchedBlock): bool {
    b.partial || (|b.recordsSet| == 1 &&
                  match b.recordsSet[0]
                  case Legacy(_, partial) => partial
                  case Default(batch) => batch.partialTrailingRecord)
  }

  datatype Response = NoBlocks | Missing | Found(block: FetchedBlock)

  datatype Consumed = Messages(messages: seq<ConsumerMessage>) | Failed(error: ConsumeError)

  predicate HasRecords(response: Response) {
    response.Found? && response.block.err == 0 && CountRecords(response.block.recordsSet) > 0
  }

  /** A block without records of which the broker had to cut off the rest. */
  predicate CutShort(response: Response) {
    && response.Found? && response.block.err == 0 && CountRecords(response.block.recordsSet) == 0
    && Partial(response.block)
  }

  /** Twice the fetch size, as a 32-bit integer and up to the maximum if there is one. */
  function Doubled(size: int, max: int): int {
    if max > 0 && Wrap32(2 * size) > max then max else Wrap32(2 * size)
  }

  function DoubledTimes(size: int, max: int, n: nat): int {
    if n == 0 then size else Doubled(DoubledTimes(size, max, n - 1), max)
  }

  /** The size times two to the n. */
  function Grown(size: int, n: nat): int {
    if n == 0 then size else 2 * Grown(size, n - 1)
  }

  lemma DoublesOnce(size: int, max: int)
    requires 0 < size <= max < 0x4000_0000
    ensures Doubled(size, max) == if 2 * size > max then max else 2 * size
  {}

  /** A fetch size below 2^30 is doubled up to the maximum, so that it grows as long as it can and gets there. */
  lemma {:induction false} FetchGrows(size: int, max: int, n: nat)
    requires 0 < size <= max < 0x4000_0000
    ensures 0 < Grown(size, n) && DoubledTimes(size, max, n) == if Grown(size, n) > max then max else Grown(size, n)
  {
    hide Doubled;
    if n > 0 {
      FetchGrows(size, max, n - 1);
      DoublesOnce(DoubledTimes(size, max, n - 1), max);
    }
  }

  class PartitionConsumer {
    const level: Isolation
    const fetchDefault: int
    const fetchMax: int
    var offset: int
    var fetchSize: int

    constructor (level: Isolation, fetchDefault: int, fetchMax: int, offset: int)
      ensures this.level == level && this.fetchDefault == fetchDefault && this.fetchMax == fetchMax
      ensures this.offset == offset && fetchSize == fetchDefault
    {
      this.level := level;
      this.fetchDefault := fetchDefault;
      this.fetchMax := fetchMax;
      this.offset := offset;
      fetchSize := fetchDefault;
    }

    /** The messages of one block, which may wrap others. */
    method TakeBlock(l: LegacyBlock) returns (messages: seq<ConsumerMessage>)
      modifies `offset
      ensures messages == Taken(old(offset), FromBlock(l)) && offset == After(old(offset), FromBlock(l))
    {
      messages := [];
      var inner := Inner(l);
      ghost var all := FromBlock(l);
      for i := 0 to |inner|
        invariant messages == Taken(old(offset), all[..i]) && offset == After(old(offset), all[..i])
      {
        var block, base := inner[i], l.block.offset - inner[|inner| - 1].offset;
        var at, timestamp := block.offset, block.msg.timestamp;
        if block.msg.version >= 1 {
          at := at + base;
          if block.msg.logAppendTime {
            timestamp := l.block.msg.timestamp;
          }
        }
        var m := ConsumerMessage(at, timestamp, l.block.msg.timestamp, block.msg.key, block.msg.value, []);
        assert all[..i + 1] == all[..i] + [m];
        TakenOne(old(offset), all[..i], m);
        if m.offset >= offset {
          messages := messages + [m];
          offset := m.offset + 1;
        }
      }
      assert all[..|inner|] == all;
    }

    method ParseMessages(blocks: seq<LegacyBlock>) returns (messages: seq<ConsumerMessage>)
      modifies `offset
      ensures messages == Taken(old(offset), FromBlocks(blocks))
      ensures offset == Advanced(old(offset), FromBlocks(blocks))
    {
      hide FromBlock, Taken, After;
      messages := [];
      ghost var all := FromBlocks(blocks);
      ghost var seen := [];
      NoneTaken(offset);
      for b := 0 to |blocks|
        invariant all == seen + FromBlocks(blocks[b..])
        invariant messages == Taken(old(offset), seen) && offset == After(old(offset), seen)
      {
        assert blocks[b..][0] == blocks[b] && blocks[b..][1..] == blocks[b + 1..];
        var ms := TakeBlock(blocks[b]);
        messages := messages + ms;
        TakenSplit(old(offset), seen, FromBlock(blocks[b]));
        seen := seen + FromBlock(blocks[b]);
      }
      assert all == seen;
      if |messages| == 0 {
        offset := offset + 1;
      }
      NothingTaken(old(offset), all);
    }

    method ParseRecords(batch: RecordBatch) returns (messages: seq<ConsumerMessage>)
      modifies `offset
      ensures messages == Taken(old(offset), FromRecords(batch))
      ensures offset == Advanced(old(offset), FromRecords(batch))
    {
      messages := [];
      ghost var all := FromRecords(batch);
      for i := 0 to |batch.records|
        invariant messages == Taken(old(offset), all[..i]) && offset == After(old(offset), all[..i])
      {
        var rec := batch.records[i];
        var timestamp := batch.firstTimestamp + rec.timestampDelta;
        if batch.logAppendTime {
          timestamp := batch.maxTimestamp;
        }
        var m := ConsumerMessage(batch.firstOffset + rec.offsetDelta, timestamp, ZERO_TIME, rec.key, rec.value,
                                 rec.headers);
        assert all[..i + 1] == all[..i] + [m];
        TakenOne(old(offset), all[..i], m);
        if m.offset >= offset {
          messages := messages + [m];
          offset := m.offset + 1;
        }
      }
      assert all[..|batch.records|] == all;
      if |messages| == 0 {
        offset := offset + 1;
      }
      NothingTaken(old(offset), all);
    }

    /** An empty response: ask for more when a message was cut, or skip it when no more can be asked for. */
    method Enlarge(partial: bool) returns (tooLarge: bool)
      modifies `offset, `fetchSize
      ensures tooLarge == (partial && fetchMax > 0 && old(fetchSize) == fetchMax)
      ensures offset == if tooLarge then old(offset) + 1 else old(offset)
      ensures fetchSize == if !partial || tooLarge then old(fetchSize) else Doubled(old(fetchSize), fetchMax)
    {
      tooLarge := false;
      if partial {
        if fetchMax > 0 && fetchSize == fetchMax {
          tooLarge := true;
          offset := offset + 1;
        } else {
          fetchSize := Wrap32(fetchSize * 2);
          if fetchMax > 0 && fetchSize > fetchMax {
            fetchSize := fetchMax;
          }
        }
      }
    }

    /** The loop over the records of a block that has some. */
    method ParseBlock(block: FetchedBlock) returns (r: Consumed)
      modifies `offset, `fetchSize
      ensures fetchSize == fetchDefault
      ensures match Walk(level, Start(old(offset), block.aborted), block.recordsSet)
              case Parsed(t) => r == Messages(t.messages) && offset == t.offset
              case Broken(o) => r == Failed(BrokenControlRecord) && offset == o
    {
      hide Taken, Advanced, FromRecords, FromBlocks, Sorted, ControlOf, LastOffset;
      fetchSize := fetchDefault;
      var aborted: set<int> := {};
      var pending := Sorted(block.aborted);
      var messages := [];
      ghost var spec := Walk(level, Start(offset, block.aborted), block.recordsSet);
      for i := 0 to |block.recordsSet|
        invariant fetchSize == fetchDefault
        invariant spec == Walk(level, State(offset, aborted, pending, messages), block.recordsSet[i..])
      {
        ghost var left := block.recordsSet[i..];
        ghost var s := State(offset, aborted, pending, messages);
        assert left[0] == block.recordsSet[i] && left[1..] == block.recordsSet[i + 1..];
        match block.recordsSet[i] {
          case Legacy(blocks, _) =>
            var ms := ParseMessages(blocks);
            messages := messages + ms;
          case Default(b) =>
            aborted, pending := BeginUpTo(aborted, pending, LastOffset(b));
            BeginAlone(s, LastOffset(b));
            var ms := ParseRecords(b);
            if b.control {
              var control := ControlOf(b);
              if control == None { return Failed(BrokenControlRecord); }
              if control == Some(Abort) {
                aborted := aborted - {b.producerId};
              }
            } else if level.ReadCommitted? && b.isTransactional && b.producerId in aborted {
            } else {
              messages := messages + ms;
            }
        }
      }
      r := Messages(messages);
    }

    method ParseResponse(response: Response) returns (r: Consumed, tooLarge: bool)
      modifies `offset, `fetchSize
      ensures r.Messages? ==> Rising(old(offset), r.messages, offset)
      ensures offset >= old(offset)
      ensures HasRecords(response) ==>
        && !tooLarge && fetchSize == fetchDefault
        && match Walk(level, Start(old(offset), response.block.aborted), response.block.recordsSet)
           case Parsed(t) => r == Messages(t.messages) && offset == t.offset
           case Broken(o) => r == Failed(BrokenControlRecord) && offset == o
      ensures !HasRecords(response) ==>
        r == match response
             case NoBlocks => Messages([])
             case Missing => Failed(IncompleteResponse)
             case Found(b) => if b.err != 0 then Failed(BrokerError(b.err)) else Messages([])
      ensures tooLarge <==> CutShort(response) && fetchMax > 0 && old(fetchSize) == fetchMax
      ensures !HasRecords(response) ==>
        && offset == old(offset) + (if tooLarge then 1 else 0)
        && fetchSize == if CutShort(response) && !tooLarge then Doubled(old(fetchSize), fetchMax) else old(fetchSize)
    {
      hide Walk, Sorted;
      tooLarge := false;
      match response {
        case NoBlocks => r := Messages([]);
        case Missing => r := Failed(IncompleteResponse);
        case Found(block) =>
          if block.err != 0 { return Failed(BrokerError(block.err)), false; }
          if CountRecords(block.recordsSet) == 0 {
            tooLarge := Enlarge(Partial(block));
            return Messages([]), tooLarge;
          }
          WalkRises(level, offset, Start(offset, block.aborted), block.recordsSet);
          r := ParseBlock(block);
      }
    }
  }

  method BeginUpTo(aborted: set<int>, pending: seq<AbortedTransaction>, last: int)
    returns (after: set<int>, left: seq<AbortedTransaction>)
    ensures var t := Begin(State(0, aborted, pending, []), last);
            after == t.aborted && left == t.pending
  {
    after, left := aborted, pending;
    while left != [] && left[0].firstOffset <= last
      invariant Begin(State(0, aborted, pending, []), last) == Begin(State(0, after, left, []), last)
      decreases |left|
    {
      after := after + {left[0].producerId};
      left := left[1..];
    }
  }

  lemma {:induction false} BeginAlone(s: State, last: int)
    ensures var t, u := Begin(s, last), Begin(State(0, s.aborted, s.pending, []), last);
            t.aborted == u.aborted && t.pending == u.pending && t.offset == s.offset && t.messages == s.messages
    decreases |s.pending|
  {
    if s.pending != [] && s.pending[0].firstOffset <= last {
      BeginAlone(s.(aborted := s.aborted + {s.pending[0].producerId}, pending := s.pending[1..]), last);
    }
  }

  lemma NoneTaken(c: int)
    ensures Taken(c, []) == [] && After(c, []) == c
  {}

  lemma TakenOne(c: int, ms: seq<ConsumerMessage>, m: ConsumerMessage)
    ensures Taken(c, ms + [m]) == Taken(c, ms) + (if m.offset < After(c, ms) then [] else [m])
    ensures After(c, ms + [m]) == if m.offset < After(c, ms) then After(c, ms) else m.offset + 1
  {
    TakenSplit(c, ms, [m]);
  }

  lemma {:induction false} NothingTaken(c: int, ms: seq<ConsumerMessage>)
    ensures Taken(c, ms) == [] ==> After(c, ms) == c
    decreases |ms|
  {
    if ms != [] && ms[0].offset < c {
      NothingTaken(c, ms[1..]);
    }
  }
}
