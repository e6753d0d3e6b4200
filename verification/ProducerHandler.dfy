/**
  The partition producer keeps the invariant: each thing that `dispatch` can do with the message at
  the head of its queue, cut into steps that keep `Core` one by one.
 */
module ProducerHandler {
  import opened Wrappers
  import opened ProducerProtocol
  import opened ProducerPath
  import opened ProducerShape
  import opened ProducerInvariant

  /** Only buffers and queues differ: the broker producers and the chasers are the same. */
  ghost predicate SameBrokers(s: State, t: State) {
    && t.brokers == s.brokers && t.current == s.current && t.highWatermark == s.highWatermark
    && t.max == s.max && t.crashed == s.crashed && t.retryQueue == s.retryQueue
    && SameChasers(s.retryState, t.retryState)
  }

  lemma SameBrokersStructure(s: State, t: State)
    requires Structure(s) && SameBrokers(s, t) && LevelsOk(t.retryState, t.highWatermark)
    requires BackOk(s.retryState, s.highWatermark, Back(t))
    requires Lane(s.highWatermark, Back(t), CurrentView(s), CurrentReady(s))
    ensures Structure(t)
  {
    hide BackOk, Lane, LevelsOk, BrokersOk;
    BackSame(s.retryState, t.retryState, s.highWatermark, Back(t));
    BrokersSame(s.retryState, t.retryState, s.highWatermark, s.current, s.brokers);
  }

  lemma PopStructure(s: State, t: State)
    requires Structure(s) && s.handlerQueue != [] && SameBrokers(s, t) && LevelsOk(t.retryState, t.highWatermark)
    requires t.handlerQueue == s.handlerQueue[1..]
    ensures Structure(t)
  {
    hide BackOk, Lane, LevelsOk, BrokersOk;
    assert Back(t) == Back(s)[1..];
    BackTail(s.retryState, s.highWatermark, Back(s));
    LaneTail(s.highWatermark, Back(s), CurrentView(s), CurrentReady(s));
    SameBrokersStructure(s, t);
  }

  lemma HeadMessage(s: State)
    requires Structure(s) && s.handlerQueue != []
    ensures BackMessage(s.retryState, s.highWatermark, s.handlerQueue[0])
  {
    hide Lane, LevelsOk, BrokersOk;
    assert s.handlerQueue[0] in Back(s);
  }

  lemma CoreRange(s: State)
    requires Core(s)
    ensures s.highWatermark < |s.retryState| == s.max + 1
    ensures s.current.Some? ==> s.current.value < |s.brokers|
  {}

  lemma LayoutBuffer(s: State, t: State, h: nat)
    requires h < |s.retryState| && t.brokers == s.brokers && t.handlerQueue == s.handlerQueue && t.retryQueue == s.retryQueue
    requires |t.retryState| == |s.retryState| && t.retryState == s.retryState[h := t.retryState[h]]
    ensures Layout(t) == Layout(s)[h := t.retryState[h].buf]
  {}

  lemma LayoutPop(s: State, t: State, r: nat)
    requires r < |s.retryState| && s.handlerQueue != []
    requires t.brokers == s.brokers && t.handlerQueue == s.handlerQueue[1..] && t.retryQueue == s.retryQueue
    requires |t.retryState| == |s.retryState| && t.retryState == s.retryState[r := t.retryState[r]]
    ensures Layout(t) == Layout(s)[|s.retryState| := s.handlerQueue[1..]][r := t.retryState[r].buf]
  {}

  // ---------------------------------------------------------------- the head of the queue

  lemma BufferOrder(s: State, r: nat)
    requires Core(s) && s.handlerQueue != [] && s.handlerQueue[0].Data? && s.handlerQueue[0].retries == r < s.highWatermark
    ensures var p, i := Layout(s), |s.retryState|; Ordered(p[i := p[i][1..]][r := p[r] + [p[i][0]]])
  {
    CoreRange(s);
    hide BackOk, Lane, LevelsOk, BrokersOk, OncePerId, Older, Increasing, Chased;
    var p, i := Layout(s), |s.retryState|;
    forall k, y: Message | r < k < i && y in p[k] && y.Data? ensures y.retries != r {
      BufferedData(s.retryState, s.highWatermark, k);
    }
    hide Ordered;
    MoveLeft(p, i, r);
  }

  /** A user message below the watermark waits in the buffer of its level. */
  lemma Buffered(s: State, t: State, r: nat)
    requires Core(s) && s.handlerQueue != [] && s.handlerQueue[0].Data? && s.handlerQueue[0].retries == r < s.highWatermark
    requires t == s.(handlerQueue := s.handlerQueue[1..],
                     retryState := s.retryState[r := s.retryState[r].(buf := s.retryState[r].buf + [s.handlerQueue[0]])])
    ensures Core(t)
  {
    CoreRange(s);
    hide BackOk, Lane, LevelsOk, BrokersOk, Ledger;
    var p, i, x := Layout(s), |s.retryState|, s.handlerQueue[0];
    LayoutPop(s, t, r);
    BufferOrder(s, r);
    LedgerMove(p, Layout(t), s.retryState, t.retryState, s.nextId, s.successes, s.errors, Live(s), i, r, x);
    LevelsPush(s.retryState, s.highWatermark, r, x);
    PopStructure(s, t);
  }

  /** A user message is returned because no leader could be found. */
  lemma HeadFails(s: State, t: State)
    requires Core(s) && s.handlerQueue != [] && s.handlerQueue[0].Data?
    requires t == ReturnError(s.(handlerQueue := s.handlerQueue[1..]), s.handlerQueue[0])
    ensures Core(t)
  {
    hide BackOk, Lane, LevelsOk, BrokersOk, Ledger;
    var p, i, x := Layout(s), |s.retryState|, s.handlerQueue[0];
    assert Cut(p[i], 0, 1) == p[i][1..];
    assert Layout(t) == p[i := Cut(p[i], 0, 1)];
    LedgerFail(p, Layout(t), s.retryState, s.retryState, s.nextId, s.successes, s.errors, Live(s), i, 0, [x]);
    PopStructure(s, t);
  }

  /** t is s after message x was appended to the input of the broker producer in use. */
  ghost predicate SentOne(s: State, t: State, c: nat, x: Message) {
    && s.current == Some(c) && t.current == s.current && c < |s.brokers|
    && t.brokers == s.brokers[c := s.brokers[c].(input := s.brokers[c].input + [x])]
    && t.highWatermark == s.highWatermark && t.max == s.max && t.crashed == s.crashed && t.retryQueue == s.retryQueue
    && SameChasers(s.retryState, t.retryState)
  }

  lemma SentView(s: State, t: State, c: nat, x: Message)
    requires SentOne(s, t, c, x)
    ensures View(t.brokers[c]) == View(s.brokers[c]) + [Raised(x)]
  {
    assert t.brokers[c].Contents() == s.brokers[c].Contents() + [x];
  }

  lemma SentStructure(s: State, t: State, c: nat, x: Message)
    requires Structure(s) && SentOne(s, t, c, x) && x.Data? && x.retries == s.highWatermark
    requires LevelsOk(t.retryState, t.highWatermark)
    requires BackOk(s.retryState, s.highWatermark, Back(t))
    requires Lane(s.highWatermark, Back(t), CurrentView(s), CurrentReady(s))
    ensures Structure(t)
  {
    hide BackOk, Lane, ViewOk;
    SentView(s, t, c, x);
    var v, h := View(s.brokers[c]), s.highWatermark;
    assert BrokerOk(s.retryState, h, true, s.brokers[c]);
    ViewSent(s.retryState, h, s.brokers[c].NeedsRetry(), v, Raised(x));
    LaneSent(h, Back(t), v, CurrentReady(s), Raised(x));
    assert BrokerOk(s.retryState, h, true, t.brokers[c]);
    hide BrokersOk, BrokerOk, LevelsOk;
    BrokersUpdate(s.retryState, h, s.current, s.brokers, c, t.brokers[c]);
    BrokersSame(s.retryState, t.retryState, h, s.current, t.brokers);
    BackSame(s.retryState, t.retryState, h, Back(t));
  }

  lemma SentBehind(s: State, c: nat, k: nat, y: Message)
    requires Core(s) && s.current == Some(c) && BrokerPart(s, c) < k < |Layout(s)| && y in Layout(s)[k] && y.Data?
    ensures y.retries != s.highWatermark + 1
  {
    hide Structure, Books;
    BrokerHeld(s, k - |s.retryState| - 2, y);
  }

  lemma SentAhead(s: State, i: nat, k: nat, y: Message)
    requires Core(s) && k < i <= |s.retryState| && y in Layout(s)[k]
    requires i < |s.retryState| ==> i == s.highWatermark
    requires i == |s.retryState| ==> s.highWatermark < i && s.retryState[s.highWatermark].buf == []
    ensures y.Data? && y.retries != s.highWatermark
  {
    hide Structure, Books, LevelsOk;
    LevelsAreOk(s);
    assert y in s.retryState[k].buf;
    BufferedData(s.retryState, s.highWatermark, k);
  }

  lemma SentOrder(s: State, i: nat, c: nat, p: Parts, j: nat)
    requires i <= |s.retryState| && i < |p| && p[i] != [] && p[i][0].Data? && j < |p|
    requires p[i][0].retries == s.highWatermark < |s.retryState| && s.current == Some(c) && c < |s.brokers|
    requires i < |s.retryState| ==> i == s.highWatermark
    requires i == |s.retryState| ==> s.retryState[s.highWatermark].buf == []
    requires p == Layout(s) && j == BrokerPart(s, c) && Core(s)
    ensures Ordered(p[i := p[i][1..]][j := p[j] + [Raised(p[i][0])]])
  {
    hide Structure, OncePerId, Older, Increasing, Chased, Ordered;
    forall k, y: Message | j < k < |p| && y in p[k] && y.Data? ensures y.retries != s.highWatermark + 1 {
      SentBehind(s, c, k, y);
    }
    forall k, y: Message | 0 <= k < i && y in p[k] && y.Data? ensures y.retries != s.highWatermark {
      SentAhead(s, i, k, y);
    }
    MoveRight(p, i, j);
  }

  /** A user message of the current level passes straight to the broker producer. */
  lemma HeadPasses(s: State, t: State)
    requires Core(s) && s.handlerQueue != [] && s.current.Some? && s.current.value < |s.brokers|
    requires s.handlerQueue[0].Data? && s.handlerQueue[0].retries == s.highWatermark
    requires s.highWatermark < |s.retryState| && s.retryState[s.highWatermark].buf == []
    requires t == Send(s.(handlerQueue := s.handlerQueue[1..]), s.handlerQueue[0])
    ensures Core(t)
  {
    hide BackOk, Lane, LevelsOk, BrokersOk, Ledger;
    var c, x, i, p := s.current.value, s.handlerQueue[0], |s.retryState|, Layout(s);
    var j := BrokerPart(s, c);
    SentView(s, t, c, x);
    assert p[i] == s.handlerQueue && p[j] == View(s.brokers[c]);
    assert Layout(t) == p[i := p[i][1..]][j := p[j] + [Raised(x)]];
    SentOrder(s, i, c, p, j);
    LedgerMove(p, Layout(t), s.retryState, s.retryState, s.nextId, s.successes, s.errors, Live(s), i, j, Raised(x));
    assert Back(t) == Back(s)[1..];
    BackTail(s.retryState, s.highWatermark, Back(s));
    LaneTail(s.highWatermark, Back(s), CurrentView(s), CurrentReady(s));
    SentStructure(s, t, c, x);
  }

  lemma SentLayout(s: State, t: State, c: nat, h: nat)
    requires s.current == Some(c) && c < |s.brokers| && h < |s.retryState| && s.retryState[h].buf != []
    requires t == Send(s.(retryState := s.retryState[h := s.retryState[h].(buf := s.retryState[h].buf[1..])]), s.retryState[h].buf[0])
    ensures SentOne(s, t, c, s.retryState[h].buf[0])
    ensures t == s.(retryState := s.retryState[h := s.retryState[h].(buf := s.retryState[h].buf[1..])], brokers := t.brokers)
    ensures var p, j, x := Layout(s), BrokerPart(s, c), s.retryState[h].buf[0];
            Layout(t) == p[h := p[h][1..]][j := p[j] + [Raised(x)]]
  {
    SentView(s, t, c, s.retryState[h].buf[0]);
  }

  lemma BufferedPassesStructure(s: State, t: State, h: nat, c: nat)
    requires Structure(s) && h == s.highWatermark < |s.retryState| && s.retryState[h].buf != []
    requires SentOne(s, t, c, s.retryState[h].buf[0])
    requires t == s.(retryState := s.retryState[h := s.retryState[h].(buf := s.retryState[h].buf[1..])], brokers := t.brokers)
    ensures Structure(t)
  {
    hide BackOk, Lane, LevelsOk, BrokersOk;
    var x := s.retryState[h].buf[0];
    assert x in s.retryState[h].buf;
    BufferedData(s.retryState, h, h);
    assert Back(t) == Back(s);
    LevelsPop(s.retryState, h, h, 1);
    SentStructure(s, t, c, x);
  }

  /** The oldest message of the buffer that is being flushed passes to the broker producer. */
  lemma BufferedPasses(s: State, t: State, h: nat)
    requires Core(s) && h == s.highWatermark && s.current.Some? && s.current.value < |s.brokers|
    requires h < |s.retryState| && s.retryState[h].buf != []
    requires t == Send(s.(retryState := s.retryState[h := s.retryState[h].(buf := s.retryState[h].buf[1..])]), s.retryState[h].buf[0])
    ensures Core(t)
  {
    hide Structure, LevelsOk, Ledger;
    var c, x, p := s.current.value, s.retryState[h].buf[0], Layout(s);
    LevelsAreOk(s);
    assert x in s.retryState[h].buf;
    BufferedData(s.retryState, h, h);
    SentLayout(s, t, c, h);
    hide Send;
    assert p[h] == s.retryState[h].buf;
    SentOrder(s, h, c, p, BrokerPart(s, c));
    LedgerMove(p, Layout(t), s.retryState, t.retryState, s.nextId, s.successes, s.errors, Live(s), h, BrokerPart(s, c), Raised(x));
    BufferedPassesStructure(s, t, h, c);
  }

  lemma EmptiedStructure(s: State, t: State, h: nat)
    requires Structure(s) && h == s.highWatermark < |s.retryState|
    requires t == ReturnErrors(s.(retryState := s.retryState[h := s.retryState[h].(buf := [])]), s.retryState[h].buf)
    ensures Structure(t)
  {
    hide BackOk, Lane, LevelsOk, BrokersOk;
    var batch := s.retryState[h].buf;
    assert batch[|batch|..] == [];
    LevelsPop(s.retryState, h, h, |batch|);
    assert Back(t) == Back(s);
    SameBrokersStructure(s, t);
  }

  /** A whole buffer is returned as errors. */
  lemma BufferFails(s: State, t: State, h: nat)
    requires Core(s) && h == s.highWatermark < |s.retryState|
    requires t == ReturnErrors(s.(retryState := s.retryState[h := s.retryState[h].(buf := [])]), s.retryState[h].buf)
    ensures Core(t)
  {
    hide Structure, Ledger, LevelsOk;
    var p, batch := Layout(s), s.retryState[h].buf;
    LevelsAreOk(s);
    BufferedData(s.retryState, h, h);
    assert Cut(p[h], 0, |batch|) == [];
    LayoutBuffer(s, t, h);
    LedgerFail(p, Layout(t), s.retryState, t.retryState, s.nextId, s.successes, s.errors, Live(s), h, 0, batch);
    EmptiedStructure(s, t, h);
  }

  // ---------------------------------------------------------------- finding a leader

  lemma Grow(s: State, t: State)
    requires Core(s) && t == s.(brokers := s.brokers + [IDLE])
    ensures Core(t)
  {
    hide BackOk, Lane, LevelsOk, Ledger;
    var p := Layout(s);
    assert View(IDLE) == [];
    assert Layout(t) == p + [[]];
    LedgerGrow(p, Layout(t), s.retryState, s.nextId, s.successes, s.errors, Live(s));
    assert CurrentView(t) == CurrentView(s) && Back(t) == Back(s) && CurrentReady(t) == CurrentReady(s);
    forall a | 0 <= a < |t.brokers| ensures BrokerOk(t.retryState, t.highWatermark, t.current == Some(a), t.brokers[a]) {
      if a < |s.brokers| {
        assert BrokerOk(s.retryState, s.highWatermark, s.current == Some(a), s.brokers[a]);
      } else {
        assert View(t.brokers[a]) == [];
      }
    }
  }

  /** While no broker producer is in use, nothing on its way back is above the watermark. */
  lemma NoneAbove(s: State)
    requires Structure(s) && s.current.None?
    ensures forall m | m in Back(s) :: !Above(s.highWatermark, m)
  {}

  /** A session opens on broker producer b. */
  lemma SelectedStructure(s: State, t: State, b: nat)
    requires Structure(s) && s.current.None? && b < |s.brokers|
    requires t == s.(current := Some(b), waitGroup := s.waitGroup + 1,
                     brokers := s.brokers[b := s.brokers[b].(input := s.brokers[b].input + [Syn])])
    requires View(t.brokers[b]) == View(s.brokers[b]) + [Syn]
    ensures Structure(t)
  {
    NoneAbove(s);
    hide BackOk, Lane, LevelsOk, ViewOk;
    var v, h := View(s.brokers[b]), s.highWatermark;
    assert BrokerOk(s.retryState, h, false, s.brokers[b]);
    ViewSyn(s.retryState, h, s.brokers[b].NeedsRetry(), v);
    forall a | 0 <= a < |t.brokers| ensures BrokerOk(t.retryState, h, t.current == Some(a), t.brokers[a]) {
      assert BrokerOk(s.retryState, h, s.current == Some(a), s.brokers[a]);
    }
    assert Back(t) == Back(s) && CurrentView(t) == v + [Syn];
    LaneNone(h, Back(t), CurrentView(t), CurrentReady(t));
  }

  lemma Selected(s: State, t: State, b: nat)
    requires Core(s) && s.current.None? && b < |s.brokers|
    requires t == s.(current := Some(b), waitGroup := s.waitGroup + 1,
                     brokers := s.brokers[b := s.brokers[b].(input := s.brokers[b].input + [Syn])])
    ensures Core(t)
  {
    hide Structure, Ledger;
    var p, j := Layout(s), BrokerPart(s, b);
    assert t.brokers[b].Contents() == s.brokers[b].Contents() + [Syn];
    assert View(t.brokers[b]) == View(s.brokers[b]) + [Syn];
    LayoutBroker(s, t, b);
    assert p[j] == View(s.brokers[b]);
    LedgerMarker(p, Layout(t), s.retryState, s.retryState, s.nextId, s.successes, s.errors, Live(s), j, Syn);
    SelectedStructure(s, t, b);
  }

  /** What UpdateLeader leaves alone. */
  ghost predicate LeaderFrame(s: State, t: State) {
    t == s.(current := t.current, brokers := t.brokers, waitGroup := t.waitGroup)
  }

  lemma LeaderUpdated(s: State, leader: Leader)
    requires Core(s) && s.current.None?
    ensures Core(UpdateLeader(s, leader)) && LeaderFrame(s, UpdateLeader(s, leader))
    ensures UpdateLeader(s, leader).current.Some? <==> leader.At?
  {
    hide Core;
    if leader.At? {
      var b := leader.broker;
      if b < |s.brokers| {
        Selected(s, UpdateLeader(s, leader), b);
      } else {
        var grown := s.(brokers := s.brokers + [IDLE]);
        Grow(s, grown);
        Selected(grown, UpdateLeader(s, leader), |s.brokers|);
      }
    }
  }

  // ---------------------------------------------------------------- a new high watermark

  /** Behind a message of a new level, nothing is higher, and the session in use holds only levels up to it. */
  lemma NothingHigher(s: State, level: nat)
    requires Structure(s) && s.handlerQueue != [] && s.handlerQueue[0].Data?
    requires s.handlerQueue[0].retries == level > s.highWatermark
    ensures s.current.Some? && s.current.value < |s.brokers| && s.brokers[s.current.value].NeedsRetry()
    ensures forall m | m in View(s.brokers[s.current.value]) :: m.Data? && s.highWatermark < m.retries <= level
    ensures forall m | m in Back(s) && m.Data? :: m.retries <= level
  {
    hide BackOk, LevelsOk, BrokersOk;
    var x, q, u := s.handlerQueue[0], Back(s), Back(s) + CurrentView(s);
    assert x == q[0] == u[0] && x in q && Above(s.highWatermark, x);
    forall i | 0 <= i < |u| && u[i].Data? ensures u[i].retries <= level {
      if i > 0 {
        assert Falls(s.highWatermark, u[0], u[i]);
      }
    }
    forall m | m in q && m.Data? ensures m.retries <= level {
      var i :| 0 <= i < |q| && q[i] == m;
      assert u[i] == m;
    }
    var c := s.current.value;
    forall m | m in CurrentView(s) ensures m.Data? && s.highWatermark < m.retries <= level {
      var i :| 0 <= i < |CurrentView(s)| && CurrentView(s)[i] == m;
      assert u[|q| + i] == m;
      BrokerHeld(s, c, m);
    }
  }

  lemma RaisedCover(levels: seq<RetryLevel>, levels': seq<RetryLevel>, hwm: nat, level: nat, r: nat)
    requires LevelsOk(levels, hwm) && hwm < level < |levels| && 1 <= r <= level
    requires levels' == levels[level := levels[level].(expectChaser := true)]
    requires r <= hwm ==> Cover(levels, r) <= hwm
    ensures Cover(levels', r) == if r <= hwm then Cover(levels, r) else level
  {
    if r <= hwm {
      CoverIs(levels', r, Cover(levels, r));
    } else {
      CoverIs(levels', r, level);
    }
  }

  lemma RaisedBack(levels: seq<RetryLevel>, levels': seq<RetryLevel>, hwm: nat, level: nat, q: seq<Message>)
    requires LevelsOk(levels, hwm) && BackOk(levels, hwm, q) && hwm < level < |levels|
    requires levels' == levels[level := levels[level].(expectChaser := true)]
    requires forall m | m in q && m.Data? :: m.retries <= level
    ensures BackOk(levels', level, q)
  {
    forall m | m in q ensures BackMessage(levels', level, m) {
      assert BackMessage(levels, hwm, m);
      if m.Data? && m.retries >= 1 {
        RaisedCover(levels, levels', hwm, level, m.retries);
      }
    }
    forall i, j | 0 <= i < j < |q| ensures BackPair(levels', q[i], q[j]) {
      assert q[i] in q && q[j] in q;
      assert BackMessage(levels, hwm, q[i]) && BackMessage(levels, hwm, q[j]);
      assert BackPair(levels, q[i], q[j]);
      if q[j].Data? && q[j].retries >= 1 {
        RaisedCover(levels, levels', hwm, level, q[j].retries);
      }
    }
  }

  /** A broker producer that was not in use does not notice the new watermark. */
  lemma RaisedOther(levels: seq<RetryLevel>, levels': seq<RetryLevel>, hwm: nat, level: nat, retry: bool, v: seq<Message>)
    requires LevelsOk(levels, hwm) && ViewOk(levels, hwm, false, retry, v) && hwm < level < |levels|
    requires levels' == levels[level := levels[level].(expectChaser := true)]
    ensures ViewOk(levels', level, false, retry, v)
  {
    forall m | m in v ensures ViewMessage(levels', level, false, retry, v, m) {
      assert ViewMessage(levels, hwm, false, retry, v, m);
      if m.Data? {
        Held(levels, hwm, false, retry, v, m);
        RaisedCover(levels, levels', hwm, level, m.retries);
      }
    }
    forall i, j | 0 <= i < j < |v| ensures ViewPair(level, v[i], v[j]) {
      assert ViewPair(hwm, v[i], v[j]);
      assert v[j] in v;
      assert ViewMessage(levels, hwm, false, retry, v, v[j]);
    }
  }

  lemma FinView(levels: seq<RetryLevel>, hwm: nat, level: nat, v: seq<Message>)
    requires hwm < level < |levels| && levels[level].expectChaser && forall k | hwm < k < level :: !levels[k].expectChaser
    requires forall m | m in v :: m.Data? && hwm < m.retries <= level
    ensures ViewOk(levels, level, false, true, v + [Fin(level)])
  {
    var w := v + [Fin(level)];
    forall m | m in w ensures ViewMessage(levels, level, false, true, w, m) {
      if m in v {
        CoverIs(levels, m.retries, level);
      }
    }
    forall i, j | 0 <= i < j < |w| ensures ViewPair(level, w[i], w[j]) {
      assert w[i] in v;
      if j < |v| {
        assert w[j] in v;
      }
    }
  }

  /** t is s after newHighWatermark, with broker producer c in use before it. */
  ghost predicate Raises(s: State, t: State, level: nat, c: nat) {
    && s.highWatermark < level < |s.retryState| && s.current == Some(c) && c < |s.brokers|
    && t == s.(highWatermark := level,
               retryState := s.retryState[level := s.retryState[level].(expectChaser := true)],
               waitGroup := s.waitGroup + 1,
               brokers := s.brokers[c := s.brokers[c].(input := s.brokers[c].input + [Fin(level - 1)])],
               current := None)
  }

  lemma RaisedBrokers(s: State, t: State, level: nat, c: nat)
    requires LevelsOk(s.retryState, s.highWatermark) && BrokersOk(s.retryState, s.highWatermark, s.current, s.brokers)
    requires Raises(s, t, level, c) && s.brokers[c].NeedsRetry()
    requires View(t.brokers[c]) == View(s.brokers[c]) + [Fin(level)]
    requires forall m | m in View(s.brokers[c]) :: m.Data? && s.highWatermark < m.retries <= level
    ensures BrokersOk(t.retryState, t.highWatermark, t.current, t.brokers)
  {
    hide ViewOk;
    forall a | 0 <= a < |t.brokers| ensures BrokerOk(t.retryState, level, false, t.brokers[a]) {
      assert BrokerOk(s.retryState, s.highWatermark, s.current == Some(a), s.brokers[a]);
      if a != c {
        RaisedOther(s.retryState, t.retryState, s.highWatermark, level, s.brokers[a].NeedsRetry(), View(s.brokers[a]));
      } else {
        FinView(t.retryState, s.highWatermark, level, View(s.brokers[c]));
      }
    }
  }

  lemma RaisedStructure(s: State, t: State, level: nat, c: nat)
    requires Structure(s) && Raises(s, t, level, c) && s.brokers[c].NeedsRetry()
    requires View(t.brokers[c]) == View(s.brokers[c]) + [Fin(level)]
    requires forall m | m in View(s.brokers[c]) :: m.Data? && s.highWatermark < m.retries <= level
    requires forall m | m in Back(s) && m.Data? :: m.retries <= level
    ensures Structure(t)
  {
    hide BackOk, Lane, LevelsOk, BrokersOk;
    RaisedBrokers(s, t, level, c);
    RaisedBack(s.retryState, t.retryState, s.highWatermark, level, Back(s));
    LevelsFlag(s.retryState, s.highWatermark, level, level, true);
    assert Back(t) == Back(s) && CurrentView(t) == [];
    LaneNone(level, Back(t), [], CurrentReady(t));
  }

  lemma RaisedLayout(s: State, t: State, level: nat, c: nat)
    requires Raises(s, t, level, c)
    ensures View(t.brokers[c]) == View(s.brokers[c]) + [Fin(level)]
    ensures Layout(t) == Layout(s)[BrokerPart(s, c) := View(s.brokers[c]) + [Fin(level)]]
  {
    assert t.brokers[c].Contents() == s.brokers[c].Contents() + [Fin(level - 1)];
    assert View(t.brokers[c]) == View(s.brokers[c]) + [Fin(level)];
  }

  lemma RaisedBooks(s: State, t: State, level: nat, c: nat)
    requires Core(s) && Raises(s, t, level, c)
    ensures Books(t) && t.retryState[level].buf == []
  {
    hide Structure, Ledger, LevelsOk;
    LevelsAreOk(s);
    EmptyAbove(s.retryState, s.highWatermark, level);
    RaisedLayout(s, t, level, c);
    var p, j := Layout(s), BrokerPart(s, c);
    assert p[j] == View(s.brokers[c]);
    LedgerMarker(p, Layout(t), s.retryState, t.retryState, s.nextId, s.successes, s.errors, Live(s), j, Fin(level));
  }

  lemma WatermarkRaised(s: State, level: nat)
    requires Core(s) && s.handlerQueue != [] && s.handlerQueue[0].Data? && s.handlerQueue[0].retries == level > s.highWatermark
    ensures s.current.Some? && Raises(s, NewHighWatermark(s, level), level, s.current.value)
    ensures Core(NewHighWatermark(s, level)) && NewHighWatermark(s, level).retryState[level].buf == []
  {
    hide Structure, Books;
    HeadMessage(s);
    NothingHigher(s, level);
    var t, c := NewHighWatermark(s, level), s.current.value;
    assert Raises(s, t, level, c);
    RaisedLayout(s, t, level, c);
    RaisedBooks(s, t, level, c);
    RaisedStructure(s, t, level, c);
  }

  // ---------------------------------------------------------------- a chaser comes home

  /** Behind its own chaser, no message of the levels that it covers is left in the queues. */
  lemma ChaserLastInBack(levels: seq<RetryLevel>, hwm: nat, q: seq<Message>, r: nat)
    requires LevelsOk(levels, hwm) && BackOk(levels, hwm, q) && q != [] && q[0] == Fin(r)
    ensures 1 <= r <= hwm && levels[r].expectChaser
    ensures forall m | m in q[1..] && m.Data? && m.retries >= 1 :: Cover(levels, m.retries) != r
  {
    assert q[0] in q;
    assert BackMessage(levels, hwm, Fin(r));
    forall m | m in q[1..] && m.Data? && m.retries >= 1 ensures Cover(levels, m.retries) != r {
      var j :| 0 <= j < |q[1..]| && q[1..][j] == m;
      assert BackPair(levels, q[0], q[j + 1]);
    }
  }

  lemma ChaserAlone(s: State, r: nat)
    requires Core(s) && s.handlerQueue != [] && s.handlerQueue[0] == Fin(r) && 1 <= r < |s.retryState|
    ensures Fin(r) !in Back(s)[1..]
    ensures forall b | 0 <= b < |s.brokers| :: Fin(r) !in View(s.brokers[b])
  {
    hide Structure, Account;
    var p, n, q := Layout(s), |s.retryState|, Back(s)[1..];
    assert Fin(r) in p[n];
    forall i | 0 <= i < |q| ensures q[i] != Fin(r) {
      if q[i] == Fin(r) {
        if i + 1 < |s.handlerQueue| {
          assert p[n][0] == p[n][i + 1];
          TwiceInPart(p, n, 0, i + 1);
        } else {
          assert q[i] in p[n + 1];
          OneFin(p, s.retryState, n, n + 1, r);
        }
      }
    }
    forall b | 0 <= b < |s.brokers| ensures Fin(r) !in View(s.brokers[b]) {
      assert p[BrokerPart(s, b)] == View(s.brokers[b]);
      OneFin(p, s.retryState, n, BrokerPart(s, b), r);
    }
  }

  lemma ClearedCover(levels: seq<RetryLevel>, levels': seq<RetryLevel>, r: nat, v: nat)
    requires r < |levels| && v <= |levels| && levels' == levels[r := levels[r].(expectChaser := false)]
    requires Cover(levels, v) != r && levels[r].expectChaser
    ensures Cover(levels', v) == Cover(levels, v)
  {
    CoverIs(levels', v, Cover(levels, v));
  }

  lemma ClearedBack(levels: seq<RetryLevel>, levels': seq<RetryLevel>, hwm: nat, q: seq<Message>, r: nat)
    requires LevelsOk(levels, hwm) && BackOk(levels, hwm, q) && q != [] && q[0] == Fin(r) && r < |levels|
    requires levels' == levels[r := levels[r].(expectChaser := false)] && Fin(r) !in q[1..]
    ensures BackOk(levels', hwm, q[1..])
  {
    var w := q[1..];
    ChaserLastInBack(levels, hwm, q, r);
    BackTail(levels, hwm, q);
    forall m: Message | m in w && m.Data? && 1 <= m.retries < |levels| ensures Cover(levels', m.retries) == Cover(levels, m.retries) {
      ClearedCover(levels, levels', r, m.retries);
    }
    forall m: Message | m in w && m.Fin? && m.retries < |levels| ensures levels'[m.retries].expectChaser {
      assert BackMessage(levels, hwm, m);
    }
    BackTransfer(levels, levels', hwm, w);
  }

  lemma ClearedView(levels: seq<RetryLevel>, levels': seq<RetryLevel>, hwm: nat, mine: bool, retry: bool, v: seq<Message>, r: nat)
    requires LevelsOk(levels, hwm) && ViewOk(levels, hwm, mine, retry, v) && r < |levels| && levels[r].expectChaser
    requires levels' == levels[r := levels[r].(expectChaser := false)] && Fin(r) !in v
    ensures ViewOk(levels', hwm, mine, retry, v)
  {
    forall m: Message | m in v && m.Data? && m.retries <= hwm ensures Cover(levels', m.retries) == Cover(levels, m.retries) {
      Held(levels, hwm, mine, retry, v, m);
      ClearedCover(levels, levels', r, m.retries);
    }
    forall m: Message | m in v && m.Fin? && m.retries < |levels| ensures levels'[m.retries].expectChaser {
      assert ViewMessage(levels, hwm, mine, retry, v, m);
    }
    ViewTransfer(levels, levels', hwm, mine, retry, v);
  }

  lemma ClearedStructure(s: State, t: State, r: nat)
    requires Core(s) && s.handlerQueue != [] && s.handlerQueue[0] == Fin(r) && 1 <= r < |s.retryState|
    requires s.retryState[r].expectChaser
    requires t == s.(handlerQueue := s.handlerQueue[1..], waitGroup := s.waitGroup - 1,
                     retryState := s.retryState[r := s.retryState[r].(expectChaser := false)])
    ensures Structure(t)
  {
    ChaserAlone(s, r);
    hide BackOk, Lane, LevelsOk, ViewOk, Books;
    var h := s.highWatermark;
    assert Back(t) == Back(s)[1..];
    ClearedBack(s.retryState, t.retryState, h, Back(s), r);
    LevelsFlag(s.retryState, h, h, r, false);
    LaneTail(h, Back(s), CurrentView(s), CurrentReady(s));
    forall a | 0 <= a < |t.brokers| ensures BrokerOk(t.retryState, h, t.current == Some(a), t.brokers[a]) {
      assert BrokerOk(s.retryState, h, s.current == Some(a), s.brokers[a]);
      ClearedView(s.retryState, t.retryState, h, s.current == Some(a), s.brokers[a].NeedsRetry(), View(s.brokers[a]), r);
    }
  }

  lemma ChaserHome(s: State, t: State, r: nat)
    requires Core(s) && s.handlerQueue != [] && s.handlerQueue[0] == Fin(r) && r < |s.retryState|
    requires t == s.(handlerQueue := s.handlerQueue[1..], waitGroup := s.waitGroup - 1,
                     retryState := s.retryState[r := s.retryState[r].(expectChaser := false)])
    ensures Core(t) && 1 <= r
  {
    hide Structure, Ledger;
    HeadMessage(s);
    var p, i := Layout(s), |s.retryState|;
    assert Layout(t) == p[i := p[i][1..]];
    LedgerDrop(p, Layout(t), s.retryState, t.retryState, s.nextId, s.successes, s.errors, Live(s), i);
    ClearedStructure(s, t, r);
  }

  // ---------------------------------------------------------------- going down the levels

  /** No message is at a level that expects no chaser and is the watermark. */
  lemma DesertedBack(levels: seq<RetryLevel>, h: nat, q: seq<Message>)
    requires LevelsOk(levels, h) && BackOk(levels, h, q) && h > 0 && !levels[h].expectChaser
    ensures forall m | m in q && m.Data? :: m.retries != h
    ensures BackOk(levels, h - 1, q)
  {
    forall m | m in q ensures BackMessage(levels, h - 1, m) && !(m.Data? && m.retries == h) {
      assert BackMessage(levels, h, m);
    }
  }

  lemma DesertedView(levels: seq<RetryLevel>, h: nat, mine: bool, retry: bool, v: seq<Message>)
    requires LevelsOk(levels, h) && ViewOk(levels, h, mine, retry, v) && h > 0 && !levels[h].expectChaser
    ensures forall m | m in v && m.Data? :: m.retries != h
    ensures ViewOk(levels, h - 1, mine, retry, v)
  {
    forall m | m in v && m.Data? ensures m.retries != h {
      Held(levels, h, mine, retry, v, m);
    }
    forall m | m in v ensures ViewMessage(levels, h - 1, mine, retry, v, m) {
      assert ViewMessage(levels, h, mine, retry, v, m);
    }
    forall i, j | 0 <= i < j < |v| ensures ViewPair(h - 1, v[i], v[j]) {
      assert ViewPair(h, v[i], v[j]);
      assert v[i] in v && v[j] in v;
    }
  }

  lemma LoweredBrokers(levels: seq<RetryLevel>, h: nat, current: Option<nat>, brokers: seq<BrokerProducer>)
    requires LevelsOk(levels, h) && BrokersOk(levels, h, current, brokers) && h > 0 && !levels[h].expectChaser
    ensures BrokersOk(levels, h - 1, current, brokers)
    ensures forall b, m | 0 <= b < |brokers| && m in View(brokers[b]) && m.Data? :: m.retries != h
  {
    hide ViewOk;
    forall b | 0 <= b < |brokers|
      ensures BrokerOk(levels, h - 1, current == Some(b), brokers[b]) && forall m | m in View(brokers[b]) && m.Data? :: m.retries != h
    {
      assert BrokerOk(levels, h, current == Some(b), brokers[b]);
      DesertedView(levels, h, current == Some(b), brokers[b].NeedsRetry(), View(brokers[b]));
    }
  }

  lemma Lowered(s: State, t: State, h: nat)
    requires Core(s) && h == s.highWatermark > 0 && !s.retryState[h].expectChaser && s.retryState[h].buf == []
    requires t == s.(highWatermark := h - 1)
    ensures Core(t)
  {
    hide BackOk, Lane, LevelsOk, BrokersOk, Ledger;
    assert Layout(t) == Layout(s);
    LevelsLower(s.retryState, h);
    DesertedBack(s.retryState, h, Back(s));
    LoweredBrokers(s.retryState, h, s.current, s.brokers);
    forall m | m in Back(s) + CurrentView(s) && m.Data? ensures m.retries != h {
      assert m in Back(s) || m in CurrentView(s);
    }
    LaneLower(h, Back(s), CurrentView(s), CurrentReady(s));
    assert CurrentView(t) == CurrentView(s) && Back(t) == Back(s);
  }

  /** The rest of a buffer is sent, message by message. */
  lemma {:induction false} BufferSent(s: State, h: nat)
    requires Core(s) && h == s.highWatermark < |s.retryState| && s.current.Some? && s.current.value < |s.brokers|
    ensures Core(SendAll(s.(retryState := s.retryState[h := s.retryState[h].(buf := [])]), s.retryState[h].buf))
    decreases |s.retryState[h].buf|
  {
    hide Core;
    var batch, r := s.retryState[h].buf, s.retryState[h];
    var emptied := s.(retryState := s.retryState[h := r.(buf := [])]);
    if batch == [] {
      assert s.retryState[h := r.(buf := [])] == s.retryState;
    } else {
      var t := Send(s.(retryState := s.retryState[h := r.(buf := batch[1..])]), batch[0]);
      BufferedPasses(s, t, h);
      BufferSent(t, h);
      assert t.retryState[h := t.retryState[h].(buf := [])] == emptied.retryState;
      assert t.(retryState := emptied.retryState) == Send(emptied, batch[0]);
    }
  }

  lemma LevelFlushed(s: State, leaders: seq<Leader>)
    requires Core(s) && s.highWatermark < |s.retryState|
    ensures Core(FlushLevel(s, leaders))
  {
    hide Core;
    var h := s.highWatermark;
    var s1 := if s.current.None? then UpdateLeader(s, LeaderFor(leaders, h)) else s;
    if s.current.None? {
      LeaderUpdated(s, LeaderFor(leaders, h));
    }
    CoreRange(s1);
    if s1.current.None? {
      BufferFails(s1, FlushLevel(s, leaders), h);
    } else {
      BufferSent(s1, h);
    }
  }

  lemma {:induction false} BuffersFlushed(s: State, leaders: seq<Leader>)
    requires Core(s) && 0 < s.highWatermark < |s.retryState|
    requires !s.retryState[s.highWatermark].expectChaser && s.retryState[s.highWatermark].buf == []
    ensures Settled(FlushRetryBuffers(s, leaders))
    decreases s.highWatermark
  {
    hide Core, FlushLevel;
    var lowered := s.(highWatermark := s.highWatermark - 1);
    Lowered(s, lowered, s.highWatermark);
    LevelFlushed(lowered, leaders);
    FlushLevelFrame(lowered, leaders);
    var s1 := FlushLevel(lowered, leaders);
    if !s1.retryState[s1.highWatermark].expectChaser && s1.highWatermark > 0 {
      BuffersFlushed(s1, leaders);
    }
  }

  // ---------------------------------------------------------------- the count is taken at the end

  /** flushRetryBuffers neither reads the wait group nor depends on when a fin is counted off. */
  function Shift(s: State, d: int): State {
    s.(waitGroup := s.waitGroup + d)
  }

  lemma ShiftUpdateLeader(s: State, leader: Leader, d: int)
    ensures UpdateLeader(Shift(s, d), leader) == Shift(UpdateLeader(s, leader), d)
  {}

  lemma {:induction false} ShiftSendAll(s: State, batch: seq<Message>, d: int)
    ensures SendAll(Shift(s, d), batch) == Shift(SendAll(s, batch), d)
    decreases |batch|
  {
    if batch != [] {
      ShiftSendAll(Send(s, batch[0]), batch[1..], d);
      assert Send(Shift(s, d), batch[0]) == Shift(Send(s, batch[0]), d);
    }
  }

  lemma ShiftFlushLevel(s: State, leaders: seq<Leader>, d: int)
    requires s.highWatermark < |s.retryState|
    ensures FlushLevel(Shift(s, d), leaders) == Shift(FlushLevel(s, leaders), d)
  {
    var level, leader := s.highWatermark, LeaderFor(leaders, s.highWatermark);
    var batch, levels := s.retryState[level].buf, s.retryState[level := s.retryState[level].(buf := [])];
    var s1 := if s.current.None? then UpdateLeader(s, leader) else s;
    var t1 := if s.current.None? then UpdateLeader(Shift(s, d), leader) else Shift(s, d);
    assert t1 == Shift(s1, d) by {
      ShiftUpdateLeader(s, leader, d);
    }
    hide UpdateLeader;
    var s2, t2 := s1.(retryState := levels), t1.(retryState := levels);
    assert t2 == Shift(s2, d);
    ShiftSendAll(s2, batch, d);
    if s1.current.None? {
      assert ReturnErrors(t2, batch) == Shift(ReturnErrors(s2, batch), d);
    }
  }

  lemma {:induction false} ShiftFlush(s: State, leaders: seq<Leader>, d: int)
    requires 0 < s.highWatermark <= |s.retryState|
    ensures FlushRetryBuffers(Shift(s, d), leaders) == Shift(FlushRetryBuffers(s, leaders), d)
    decreases s.highWatermark
  {
    hide FlushLevel;
    var lowered := s.(highWatermark := s.highWatermark - 1);
    assert Shift(s, d).(highWatermark := s.highWatermark - 1) == Shift(lowered, d);
    ShiftFlushLevel(lowered, leaders, d);
    var s1 := FlushLevel(lowered, leaders);
    assert s1.highWatermark == lowered.highWatermark && |s1.retryState| == |s.retryState| by {
      FlushLevelFrame(lowered, leaders);
    }
    if !(s1.retryState[s1.highWatermark].expectChaser || s1.highWatermark == 0) {
      ShiftFlush(s1, leaders, d);
    }
  }

  lemma {:induction false} FlushPhase(s: State, leaders: seq<Leader>)
    requires 0 < s.highWatermark <= |s.retryState|
    ensures FlushRetryBuffers(s, leaders).phase == s.phase
    decreases s.highWatermark
  {
    hide FlushLevel;
    var lowered := s.(highWatermark := s.highWatermark - 1);
    FlushLevelFrame(lowered, leaders);
    var s1 := FlushLevel(lowered, leaders);
    if !(s1.retryState[s1.highWatermark].expectChaser || s1.highWatermark == 0) {
      FlushPhase(s1, leaders);
    }
  }

  // ---------------------------------------------------------------- dispatch

  lemma PopCommutes(s: State, leader: Leader)
    requires s.handlerQueue != []
    ensures UpdateLeader(s.(handlerQueue := s.handlerQueue[1..]), leader)
         == UpdateLeader(s, leader).(handlerQueue := s.handlerQueue[1..])
  {}

  /** What forwarding one message leaves alone. */
  ghost predicate Steady(s: State, t: State) {
    t.retryState == s.retryState && t.highWatermark == s.highWatermark && t.phase == s.phase
  }

  /** The head of the queue, at the current level, is forwarded or returned. */
  lemma Forwarded(s: State, leader: Leader)
    requires Core(s) && s.handlerQueue != [] && s.handlerQueue[0].Data? && s.highWatermark < |s.retryState|
    requires s.handlerQueue[0].retries == s.highWatermark && s.retryState[s.highWatermark].buf == []
    ensures var t := Forward(s.(handlerQueue := s.handlerQueue[1..]), s.handlerQueue[0], leader);
            Core(t) && Steady(s, t)
  {
    hide Core;
    var popped := s.(handlerQueue := s.handlerQueue[1..]);
    var t := Forward(popped, s.handlerQueue[0], leader);
    if s.current.None? {
      LeaderUpdated(s, leader);
    }
    var s1 := if s.current.None? then UpdateLeader(s, leader) else s;
    CoreRange(s1);
    PopCommutes(s, leader);
    hide UpdateLeader;
    if s1.current.None? {
      HeadFails(s1, t);
    } else {
      HeadPasses(s1, t);
    }
  }

  lemma DispatchHigher(s: State, leaders: seq<Leader>)
    requires Settled(s) && s.handlerQueue != [] && Level(s.handlerQueue[0]) > s.highWatermark
    ensures var t := Dispatch(s.(handlerQueue := s.handlerQueue[1..]), s.handlerQueue[0], leaders);
            Settled(t) && t.phase == s.phase
  {
    hide Books, BackOk, Lane, BrokersOk, Forward;
    var m := s.handlerQueue[0];
    var popped := s.(handlerQueue := s.handlerQueue[1..]);
    HeadMessage(s);
    WatermarkRaised(s, m.retries);
    hide Core;
    var t := NewHighWatermark(s, m.retries);
    assert NewHighWatermark(popped, m.retries) == t.(handlerQueue := popped.handlerQueue);
    Forwarded(t, LeaderFor(leaders, m.retries));
  }

  lemma DispatchLower(s: State, leaders: seq<Leader>)
    requires Settled(s) && s.handlerQueue != [] && Level(s.handlerQueue[0]) < s.highWatermark
    ensures var t := Dispatch(s.(handlerQueue := s.handlerQueue[1..]), s.handlerQueue[0], leaders);
            Settled(t) && t.phase == s.phase
  {
    CoreRange(s);
    HeadMessage(s);
    hide Core, FlushRetryBuffers;
    var m := s.handlerQueue[0];
    var t := Dispatch(s.(handlerQueue := s.handlerQueue[1..]), m, leaders);
    if m.Fin? {
      ChaserHome(s, t, m.retries);
    } else {
      Buffered(s, t, m.retries);
    }
  }

  lemma ChaserDispatch(s: State, leaders: seq<Leader>, s1: State)
    requires s.handlerQueue != [] && s.handlerQueue[0] == Fin(s.highWatermark) && 0 < s.highWatermark < |s.retryState|
    requires s1 == s.(handlerQueue := s.handlerQueue[1..],
                      retryState := s.retryState[s.highWatermark := s.retryState[s.highWatermark].(expectChaser := false)])
    ensures Dispatch(s.(handlerQueue := s.handlerQueue[1..]), s.handlerQueue[0], leaders)
         == Shift(FlushRetryBuffers(s1, leaders), -1)
  {
    hide FlushRetryBuffers;
  }

  lemma DispatchChaser(s: State, leaders: seq<Leader>)
    requires Settled(s) && s.handlerQueue != [] && s.handlerQueue[0] == Fin(s.highWatermark) && s.highWatermark > 0
    ensures var t := Dispatch(s.(handlerQueue := s.handlerQueue[1..]), s.handlerQueue[0], leaders);
            Settled(t) && t.phase == s.phase
  {
    CoreRange(s);
    hide Core, FlushRetryBuffers, Dispatch;
    var h := s.highWatermark;
    var s1 := s.(handlerQueue := s.handlerQueue[1..],
                 retryState := s.retryState[h := s.retryState[h].(expectChaser := false)]);
    ChaserHome(s, Shift(s1, -1), h);
    BuffersFlushed(Shift(s1, -1), leaders);
    ShiftFlush(s1, leaders, -1);
    FlushPhase(s1, leaders);
    ChaserDispatch(s, leaders, s1);
  }

  lemma DispatchLevel(s: State, leaders: seq<Leader>)
    requires Settled(s) && s.handlerQueue != [] && Level(s.handlerQueue[0]) == s.highWatermark
    ensures var t := Dispatch(s.(handlerQueue := s.handlerQueue[1..]), s.handlerQueue[0], leaders);
            Settled(t) && t.phase == s.phase
  {
    CoreRange(s);
    HeadMessage(s);
    hide Core, FlushRetryBuffers, Forward;
    if s.handlerQueue[0].Fin? {
      DispatchChaser(s, leaders);
    } else {
      Forwarded(s, LeaderFor(leaders, s.highWatermark));
    }
  }
}
