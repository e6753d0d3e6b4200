/**
  The shape of the retry machinery: which messages may be where. A message inside a broker producer
  is looked at one level higher, at the level at which it would come back (`View`).

  Levels above the high watermark belong to the broker producer in use. A level at or below it
  belongs to the chaser that covers it (`Cover`), and its messages travel ahead of that chaser.
 */
module ProducerShape {
  import opened Wrappers
  import opened ProducerProtocol
  import opened ProducerPath

  /** The lowest level at or above v whose chaser is still out; the number of levels if there is none. */
  function Cover(levels: seq<RetryLevel>, v: nat): (k: nat)
    ensures v <= |levels| ==> v <= k <= |levels|
    ensures k < |levels| ==> v <= k && levels[k].expectChaser
    ensures forall j | v <= j < k && j < |levels| :: !levels[j].expectChaser
    decreases |levels| - v
  {
    if v >= |levels| then |levels| else if levels[v].expectChaser then v else Cover(levels, v + 1)
  }

  lemma CoverIs(levels: seq<RetryLevel>, v: nat, k: nat)
    requires v <= k <= |levels| && (k < |levels| ==> levels[k].expectChaser)
    requires forall j | v <= j < k :: !levels[j].expectChaser
    ensures Cover(levels, v) == k
  {
    assert Cover(levels, v) <= k;
  }

  lemma CoverKept(levels: seq<RetryLevel>, levels': seq<RetryLevel>, v: nat)
    requires v <= |levels| == |levels'|
    requires forall j | v <= j < |levels| && j <= Cover(levels, v) :: levels'[j].expectChaser == levels[j].expectChaser
    ensures Cover(levels', v) == Cover(levels, v)
  {
    CoverIs(levels', v, Cover(levels, v));
  }

  // ---------------------------------------------------------------- the retry levels

  ghost predicate LevelsOk(levels: seq<RetryLevel>, hwm: nat) {
    && 2 <= |levels| && hwm < |levels|
    && !levels[0].expectChaser
    && (forall k | 0 <= k < |levels| && levels[k].expectChaser :: k <= hwm)
    && (forall k | 0 <= k < |levels| :: BufferOk(levels[k].buf, hwm, k))
  }

  ghost predicate BufferOk(buf: seq<Message>, hwm: nat, k: int) {
    && (forall m | m in buf :: m.Data? && m.retries == k)
    && (|buf| > 0 ==> k <= hwm)
  }

  lemma EmptyAbove(levels: seq<RetryLevel>, hwm: nat, level: nat)
    requires LevelsOk(levels, hwm) && hwm < level < |levels|
    ensures levels[level].buf == [] && !levels[level].expectChaser
  {
    assert BufferOk(levels[level].buf, hwm, level);
  }

  lemma BufferedData(levels: seq<RetryLevel>, hwm: nat, h: nat)
    requires LevelsOk(levels, hwm) && h < |levels|
    ensures forall m | m in levels[h].buf :: m.Data? && m.retries == h
  {
    assert BufferOk(levels[h].buf, hwm, h);
  }

  lemma LevelsPush(levels: seq<RetryLevel>, hwm: nat, r: nat, x: Message)
    requires LevelsOk(levels, hwm) && x.Data? && x.retries == r <= hwm
    ensures LevelsOk(levels[r := levels[r].(buf := levels[r].buf + [x])], hwm)
  {
    assert BufferOk(levels[r].buf, hwm, r);
    assert BufferOk(levels[r].buf + [x], hwm, r);
  }

  lemma LevelsPop(levels: seq<RetryLevel>, hwm: nat, h: nat, n: nat)
    requires LevelsOk(levels, hwm) && h < |levels| && n <= |levels[h].buf|
    ensures LevelsOk(levels[h := levels[h].(buf := levels[h].buf[n..])], hwm)
  {
    assert BufferOk(levels[h].buf, hwm, h);
    assert BufferOk(levels[h].buf[n..], hwm, h);
  }

  lemma LevelsFlag(levels: seq<RetryLevel>, hwm: nat, hwm': nat, k: nat, flag: bool)
    requires LevelsOk(levels, hwm) && 1 <= k < |levels| && hwm <= hwm' < |levels|
    requires flag ==> k <= hwm'
    ensures LevelsOk(levels[k := levels[k].(expectChaser := flag)], hwm')
  {
    var levels' := levels[k := levels[k].(expectChaser := flag)];
    forall j | 0 <= j < |levels'| ensures BufferOk(levels'[j].buf, hwm', j) {
      assert BufferOk(levels[j].buf, hwm, j);
    }
  }

  lemma LevelsLower(levels: seq<RetryLevel>, h: nat)
    requires LevelsOk(levels, h) && h > 0 && !levels[h].expectChaser && levels[h].buf == []
    ensures LevelsOk(levels, h - 1)
  {
    forall j | 0 <= j < |levels| ensures BufferOk(levels[j].buf, h - 1, j) {
      assert BufferOk(levels[j].buf, h, j);
    }
  }

  // ---------------------------------------------------------------- messages on their way back

  predicate Above(hwm: nat, m: Message) {
    m.Data? && m.retries > hwm
  }

  predicate BackMessage(levels: seq<RetryLevel>, hwm: nat, m: Message) {
    match m
    case Data(_, r) => r < |levels| && (1 <= r <= hwm ==> Cover(levels, r) <= hwm)
    case Fin(r) => 1 <= r < |levels| && levels[r].expectChaser
    case Syn => false
  }

  /** No message comes behind the chaser that covers its level. */
  predicate BackPair(levels: seq<RetryLevel>, x: Message, y: Message) {
    x.Fin? && y.Data? && y.retries >= 1 ==> Cover(levels, y.retries) != x.retries
  }

  ghost predicate BackOk(levels: seq<RetryLevel>, hwm: nat, q: seq<Message>) {
    && (forall m | m in q :: BackMessage(levels, hwm, m))
    && (forall i, j | 0 <= i < j < |q| :: BackPair(levels, q[i], q[j]))
  }

  lemma BackTail(levels: seq<RetryLevel>, hwm: nat, q: seq<Message>)
    requires BackOk(levels, hwm, q) && q != []
    ensures BackOk(levels, hwm, q[1..])
  {
    var w := q[1..];
    forall i, j | 0 <= i < j < |w| ensures BackPair(levels, w[i], w[j]) {
      assert w[i] == q[i + 1] && w[j] == q[j + 1];
    }
  }

  /** A message can join if the chaser that covers its level is not already ahead of it. */
  lemma BackAppend(levels: seq<RetryLevel>, hwm: nat, q: seq<Message>, x: Message)
    requires BackOk(levels, hwm, q) && BackMessage(levels, hwm, x)
    requires x.Data? && x.retries >= 1 ==> Fin(Cover(levels, x.retries)) !in q
    ensures BackOk(levels, hwm, q + [x])
  {
    var w := q + [x];
    forall i, j | 0 <= i < j < |w| ensures BackPair(levels, w[i], w[j]) {
      if j == |q| {
        assert w[i] in q;
      }
    }
  }

  lemma BackInsert(levels: seq<RetryLevel>, hwm: nat, q: seq<Message>, n: nat, m: Message)
    requires BackOk(levels, hwm, q) && n <= |q| && |levels| > 0 && m.Data? && m.retries == 0
    ensures BackOk(levels, hwm, q[..n] + [m] + q[n..])
  {
    var w := q[..n] + [m] + q[n..];
    forall x | x in w ensures BackMessage(levels, hwm, x) {
      assert x == m || x in q;
    }
    forall i, j | 0 <= i < j < |w| ensures BackPair(levels, w[i], w[j]) {
      if i != n && j != n {
        var i', j' := if i < n then i else i - 1, if j < n then j else j - 1;
        assert w[i] == q[i'] && w[j] == q[j'];
        assert BackPair(levels, q[i'], q[j']);
      }
    }
  }

  /** The levels change in a way that no message under way notices. */
  lemma BackTransfer(levels: seq<RetryLevel>, levels': seq<RetryLevel>, hwm: nat, q: seq<Message>)
    requires BackOk(levels, hwm, q) && |levels'| == |levels|
    requires forall m | m in q && m.Data? && 1 <= m.retries < |levels| :: Cover(levels', m.retries) == Cover(levels, m.retries)
    requires forall m | m in q && m.Fin? && m.retries < |levels| :: levels'[m.retries].expectChaser
    ensures BackOk(levels', hwm, q)
  {
    forall m | m in q ensures BackMessage(levels', hwm, m) {
      assert BackMessage(levels, hwm, m);
    }
    forall i, j | 0 <= i < j < |q| ensures BackPair(levels', q[i], q[j]) {
      assert BackPair(levels, q[i], q[j]);
      assert BackMessage(levels, hwm, q[j]);
    }
  }

  lemma BackSame(levels: seq<RetryLevel>, levels': seq<RetryLevel>, hwm: nat, q: seq<Message>)
    requires BackOk(levels, hwm, q) && SameChasers(levels, levels')
    ensures BackOk(levels', hwm, q)
  {
    forall m | m in q && m.Data? && 1 <= m.retries < |levels| ensures Cover(levels', m.retries) == Cover(levels, m.retries) {
      CoverKept(levels, levels', m.retries);
    }
    forall m | m in q && m.Fin? && m.retries < |levels| ensures levels'[m.retries].expectChaser {
      assert BackMessage(levels, hwm, m);
    }
    BackTransfer(levels, levels', hwm, q);
  }

  // ---------------------------------------------------------------- messages in broker producers

  function View(bp: BrokerProducer): (v: seq<Message>)
    ensures |v| == |bp.Contents()|
    ensures forall i | 0 <= i < |v| :: v[i] == Raised(bp.Contents()[i])
  {
    seq(|bp.Contents()|, i requires 0 <= i < |bp.Contents()| => Raised(bp.Contents()[i]))
  }

  /** A message inside a broker producer with view v: `mine` if the partition producer uses it now,
      `retry` if it sends messages back. */
  predicate ViewMessage(levels: seq<RetryLevel>, hwm: nat, mine: bool, retry: bool, v: seq<Message>, m: Message) {
    match m
    case Data(_, r) => 1 <= r <= |levels| && if r > hwm then mine else Fin(Cover(levels, r)) in v
    case Fin(r) => 1 <= r < |levels| && levels[r].expectChaser && retry
    case Syn => mine
  }

  /** An old session with its fin, then the syn of the session in use, then that session. */
  predicate ViewPair(hwm: nat, x: Message, y: Message) {
    && (x.Fin? ==> !y.Fin? && (y.Data? ==> y.retries > hwm))
    && (x.Syn? ==> y.Data?)
    && (x.Data? && !y.Data? ==> x.retries <= hwm)
  }

  ghost predicate ViewOk(levels: seq<RetryLevel>, hwm: nat, mine: bool, retry: bool, v: seq<Message>) {
    && (forall m | m in v :: ViewMessage(levels, hwm, mine, retry, v, m))
    && (forall i, j | 0 <= i < j < |v| :: ViewPair(hwm, v[i], v[j]))
  }

  ghost predicate BrokerOk(levels: seq<RetryLevel>, hwm: nat, mine: bool, bp: BrokerProducer) {
    && OnlyData(bp.inFlight) && OnlyData(bp.buffer)
    && ViewOk(levels, hwm, mine, bp.NeedsRetry(), View(bp))
  }

  ghost predicate BrokersOk(levels: seq<RetryLevel>, hwm: nat, current: Option<nat>, brokers: seq<BrokerProducer>) {
    && (current.Some? ==> current.value < |brokers|)
    && forall b | 0 <= b < |brokers| :: BrokerOk(levels, hwm, current == Some(b), brokers[b])
  }

  /** A user message in a broker producer is above the watermark and that producer is in use, or its
      chaser is in there with it and the producer sends everything back. */
  lemma Held(levels: seq<RetryLevel>, hwm: nat, mine: bool, retry: bool, v: seq<Message>, x: Message)
    requires ViewOk(levels, hwm, mine, retry, v) && x in v && x.Data?
    ensures 1 <= x.retries <= |levels|
    ensures if Above(hwm, x) then mine
            else var k := Cover(levels, x.retries); 1 <= k < |levels| && Fin(k) in v && retry
  {
    assert ViewMessage(levels, hwm, mine, retry, v, x);
    if !Above(hwm, x) {
      assert ViewMessage(levels, hwm, mine, retry, v, Fin(Cover(levels, x.retries)));
    }
  }

  lemma CutOrder(q: seq<Message>, from: nat, to: nat, i: nat, j: nat) returns (i': nat, j': nat)
    requires from <= to <= |q| && i < j < |Cut(q, from, to)|
    ensures i' < j' < |q| && q[i'] == Cut(q, from, to)[i] && q[j'] == Cut(q, from, to)[j]
  {
    i' := if i < from then i else i + to - from;
    j' := if j < from then j else j + to - from;
  }

  lemma ViewCut(levels: seq<RetryLevel>, hwm: nat, mine: bool, retry: bool, v: seq<Message>, from: nat, to: nat)
    requires ViewOk(levels, hwm, mine, retry, v) && from <= to <= |v| && OnlyData(v[from..to])
    ensures ViewOk(levels, hwm, mine, retry, Cut(v, from, to))
  {
    var w := Cut(v, from, to);
    forall m | m in v && !m.Data? ensures m in w {
      assert v == v[..from] + v[from..to] + v[to..];
    }
    forall m | m in w ensures ViewMessage(levels, hwm, mine, retry, w, m) {
      assert m in v;
      assert ViewMessage(levels, hwm, mine, retry, v, m);
    }
    forall i, j | 0 <= i < j < |w| ensures ViewPair(hwm, w[i], w[j]) {
      var i', j' := CutOrder(v, from, to, i, j);
    }
  }

  lemma ViewTail(levels: seq<RetryLevel>, hwm: nat, mine: bool, retry: bool, retry': bool, v: seq<Message>)
    requires ViewOk(levels, hwm, mine, retry, v) && v != []
    requires v[0].Data? && retry ==> retry'
    ensures ViewOk(levels, hwm, mine, retry', v[1..])
  {
    var w := v[1..];
    forall m | m in w ensures ViewMessage(levels, hwm, mine, retry', w, m) {
      var i :| 0 <= i < |w| && w[i] == m;
      assert v[i + 1] == m && m in v;
      assert ViewMessage(levels, hwm, mine, retry, v, m);
      assert ViewPair(hwm, v[0], v[i + 1]);
      assert v == [v[0]] + w;
    }
    forall i, j | 0 <= i < j < |w| ensures ViewPair(hwm, w[i], w[j]) {
      assert w[i] == v[i + 1] && w[j] == v[j + 1];
    }
  }

  lemma ViewRetry(levels: seq<RetryLevel>, hwm: nat, mine: bool, retry: bool, retry': bool, v: seq<Message>)
    requires ViewOk(levels, hwm, mine, retry, v) && (retry ==> retry')
    ensures ViewOk(levels, hwm, mine, retry', v)
  {
    forall m | m in v ensures ViewMessage(levels, hwm, mine, retry', v, m) {
      assert ViewMessage(levels, hwm, mine, retry, v, m);
    }
  }

  lemma ViewSent(levels: seq<RetryLevel>, hwm: nat, retry: bool, v: seq<Message>, x: Message)
    requires ViewOk(levels, hwm, true, retry, v) && x.Data? && x.retries == hwm + 1 <= |levels|
    ensures ViewOk(levels, hwm, true, retry, v + [x])
  {
    var w := v + [x];
    forall m | m in w ensures ViewMessage(levels, hwm, true, retry, w, m) {
      if m in v {
        assert ViewMessage(levels, hwm, true, retry, v, m);
      }
    }
  }

  lemma ViewSyn(levels: seq<RetryLevel>, hwm: nat, retry: bool, v: seq<Message>)
    requires ViewOk(levels, hwm, false, retry, v)
    ensures forall m | m in v :: !Above(hwm, m)
    ensures ViewOk(levels, hwm, true, retry, v + [Syn])
  {
    var w := v + [Syn];
    forall m | m in v ensures !Above(hwm, m) && m != Syn {
      assert ViewMessage(levels, hwm, false, retry, v, m);
    }
    forall m | m in w ensures ViewMessage(levels, hwm, true, retry, w, m) {
      if m in v {
        assert ViewMessage(levels, hwm, false, retry, v, m);
      }
    }
    forall i, j | 0 <= i < j < |w| ensures ViewPair(hwm, w[i], w[j]) {
      if j == |v| {
        assert w[i] in v;
      }
    }
  }

  lemma ViewTransfer(levels: seq<RetryLevel>, levels': seq<RetryLevel>, hwm: nat, mine: bool, retry: bool, v: seq<Message>)
    requires ViewOk(levels, hwm, mine, retry, v) && |levels'| == |levels|
    requires forall m | m in v && m.Data? && m.retries <= hwm :: Cover(levels', m.retries) == Cover(levels, m.retries)
    requires forall m | m in v && m.Fin? && m.retries < |levels| :: levels'[m.retries].expectChaser
    ensures ViewOk(levels', hwm, mine, retry, v)
  {
    forall m | m in v ensures ViewMessage(levels', hwm, mine, retry, v, m) {
      assert ViewMessage(levels, hwm, mine, retry, v, m);
    }
  }

  lemma ViewSame(levels: seq<RetryLevel>, levels': seq<RetryLevel>, hwm: nat, mine: bool, retry: bool, v: seq<Message>)
    requires ViewOk(levels, hwm, mine, retry, v) && SameChasers(levels, levels')
    ensures ViewOk(levels', hwm, mine, retry, v)
  {
    forall m | m in v && m.Data? && m.retries <= hwm ensures Cover(levels', m.retries) == Cover(levels, m.retries) {
      assert ViewMessage(levels, hwm, mine, retry, v, m);
      CoverKept(levels, levels', m.retries);
    }
    forall m | m in v && m.Fin? && m.retries < |levels| ensures levels'[m.retries].expectChaser {
      assert ViewMessage(levels, hwm, mine, retry, v, m);
    }
    ViewTransfer(levels, levels', hwm, mine, retry, v);
  }

  lemma BrokersSame(levels: seq<RetryLevel>, levels': seq<RetryLevel>, hwm: nat, current: Option<nat>, brokers: seq<BrokerProducer>)
    requires BrokersOk(levels, hwm, current, brokers) && SameChasers(levels, levels')
    ensures BrokersOk(levels', hwm, current, brokers)
  {
    forall b | 0 <= b < |brokers| ensures BrokerOk(levels', hwm, current == Some(b), brokers[b]) {
      assert BrokerOk(levels, hwm, current == Some(b), brokers[b]);
      ViewSame(levels, levels', hwm, current == Some(b), brokers[b].NeedsRetry(), View(brokers[b]));
    }
  }

  lemma BrokersUpdate(levels: seq<RetryLevel>, hwm: nat, current: Option<nat>, brokers: seq<BrokerProducer>, b: nat, bp: BrokerProducer)
    requires BrokersOk(levels, hwm, current, brokers) && b < |brokers|
    requires BrokerOk(levels, hwm, current == Some(b), bp)
    ensures BrokersOk(levels, hwm, current, brokers[b := bp])
  {
    hide BrokerOk;
    var brokers' := brokers[b := bp];
    forall a | 0 <= a < |brokers'| ensures BrokerOk(levels, hwm, current == Some(a), brokers'[a]) {
      if a != b {
        assert BrokerOk(levels, hwm, current == Some(a), brokers[a]);
      }
    }
  }

  // ---------------------------------------------------------------- the lane of the session in use

  predicate Falls(hwm: nat, x: Message, y: Message) {
    Above(hwm, x) && Above(hwm, y) ==> x.retries >= y.retries
  }

  ghost predicate Falling(hwm: nat, q: seq<Message>) {
    forall i, j | 0 <= i < j < |q| :: Falls(hwm, q[i], q[j])
  }

  /** Messages above the high watermark come from the broker producer in use, highest level first:
      q is on its way back, v is still in there, and `ready` says that it sends everything back. */
  ghost predicate Lane(hwm: nat, q: seq<Message>, v: seq<Message>, ready: bool) {
    && (forall m | m in q && Above(hwm, m) :: ready && OnlyData(v))
    && Falling(hwm, q + v)
  }

  lemma FallingCut(hwm: nat, q: seq<Message>, from: nat, to: nat)
    requires Falling(hwm, q) && from <= to <= |q|
    ensures Falling(hwm, Cut(q, from, to))
  {
    var w := Cut(q, from, to);
    forall i, j | 0 <= i < j < |w| ensures Falls(hwm, w[i], w[j]) {
      var i', j' := CutOrder(q, from, to, i, j);
    }
  }

  lemma FallingInsert(hwm: nat, q: seq<Message>, n: nat, x: Message)
    requires Falling(hwm, q) && n <= |q| && !Above(hwm, x)
    ensures Falling(hwm, q[..n] + [x] + q[n..])
  {
    var w := q[..n] + [x] + q[n..];
    forall i, j | 0 <= i < j < |w| ensures Falls(hwm, w[i], w[j]) {
      if i != n && j != n {
        var i', j' := if i < n then i else i - 1, if j < n then j else j - 1;
        assert w[i] == q[i'] && w[j] == q[j'];
        assert Falls(hwm, q[i'], q[j']);
      }
    }
  }

  lemma LaneRetry(hwm: nat, q: seq<Message>, v: seq<Message>, ready: bool, ready': bool)
    requires Lane(hwm, q, v, ready) && (ready ==> ready')
    ensures Lane(hwm, q, v, ready')
  {}

  lemma LaneTail(hwm: nat, q: seq<Message>, v: seq<Message>, ready: bool)
    requires Lane(hwm, q, v, ready) && q != []
    ensures Lane(hwm, q[1..], v, ready)
  {
    FallingCut(hwm, q + v, 0, 1);
    assert Cut(q + v, 0, 1) == q[1..] + v;
  }

  lemma LaneCut(hwm: nat, q: seq<Message>, v: seq<Message>, ready: bool, from: nat, to: nat)
    requires Lane(hwm, q, v, ready) && from <= to <= |v|
    ensures Lane(hwm, q, Cut(v, from, to), ready)
  {
    FallingCut(hwm, q + v, |q| + from, |q| + to);
    assert Cut(q + v, |q| + from, |q| + to) == q + Cut(v, from, to);
    forall m | m in Cut(v, from, to) ensures m in v {}
  }

  lemma LaneInsert(hwm: nat, q: seq<Message>, v: seq<Message>, ready: bool, n: nat, x: Message)
    requires Lane(hwm, q, v, ready) && n <= |q| && !Above(hwm, x)
    ensures Lane(hwm, q[..n] + [x] + q[n..], v, ready)
  {
    var u := q + v;
    FallingInsert(hwm, u, n, x);
    assert u[..n] + [x] + u[n..] == q[..n] + [x] + q[n..] + v;
  }

  /** The head of the session in use comes back. */
  lemma LaneBounce(levels: seq<RetryLevel>, hwm: nat, q: seq<Message>, v: seq<Message>, ready: bool)
    requires Lane(hwm, q, v, true) && v != [] && ViewOk(levels, hwm, true, true, v)
    requires v[0].Data? ==> ready
    ensures Lane(hwm, q + [v[0]], v[1..], ready)
  {
    var w := q + [v[0]];
    assert w + v[1..] == q + v;
    assert v[0] in v;
    forall m | m in w && Above(hwm, m) ensures ready && OnlyData(v[1..]) {
      if m in q {
        assert OnlyData(v);
      } else {
        forall i | 1 <= i < |v| ensures v[i].Data? {
          assert ViewPair(hwm, v[0], v[i]);
        }
      }
    }
  }

  /** The session in use opens: nothing of it has come back yet. */
  lemma LaneOpen(hwm: nat, q: seq<Message>, v: seq<Message>, ready: bool, ready': bool)
    requires Lane(hwm, q, v, ready) && v != [] && v[0] == Syn
    ensures Lane(hwm, q, v[1..], ready')
  {
    assert Syn in v;
    LaneCut(hwm, q, v, ready, 0, 1);
    assert Cut(v, 0, 1) == v[1..];
  }

  lemma LaneSent(hwm: nat, q: seq<Message>, v: seq<Message>, ready: bool, x: Message)
    requires Lane(hwm, q, v, ready) && x.Data? && x.retries == hwm + 1
    ensures Lane(hwm, q, v + [x], ready)
  {
    var u, w := q + v, q + (v + [x]);
    assert w == u + [x];
    forall i, j | 0 <= i < j < |w| ensures Falls(hwm, w[i], w[j]) {
      if j < |u| {
        assert Falls(hwm, u[i], u[j]);
      }
    }
  }

  lemma LaneNone(hwm: nat, q: seq<Message>, v: seq<Message>, ready: bool)
    requires forall m | m in q :: !Above(hwm, m)
    requires forall m | m in v :: !Above(hwm, m)
    ensures Lane(hwm, q, v, ready)
  {
    var w := q + v;
    forall i | 0 <= i < |w| ensures !Above(hwm, w[i]) {
      assert w[i] in q || w[i] in v;
    }
  }

  lemma LaneLower(hwm: nat, q: seq<Message>, v: seq<Message>, ready: bool)
    requires Lane(hwm, q, v, ready) && hwm > 0
    requires forall m | m in q + v && m.Data? :: m.retries != hwm
    ensures Lane(hwm - 1, q, v, ready)
  {
    var w := q + v;
    forall i, j | 0 <= i < j < |w| ensures Falls(hwm - 1, w[i], w[j]) {
      assert w[i] in w && w[j] in w;
      assert Falls(hwm, w[i], w[j]);
    }
    forall m | m in q && Above(hwm - 1, m) ensures Above(hwm, m) {
      assert m in w;
    }
  }
}
