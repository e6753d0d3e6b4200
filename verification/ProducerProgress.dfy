/**
  The producer never gets stuck. From every reachable state there is a continuation after which nothing is
  under way, and as long as it takes messages there is one in which a new message is acknowledged.

  The work left is counted: a message costs more the fewer retries it has behind it, and more the further
  it is from the broker. Without a new leader, every step that an actor can take reduces the work, except
  that a first message of a higher level gives up the broker producer and sends a fin.
 */
module ProducerProgress {
  import opened Wrappers
  import opened ProducerProtocol
  import opened ProducerPath
  import opened ProducerShape
  import opened ProducerInvariant
  import opened ProducerHandler
  import opened ProducerGuarantees

  // ---------------------------------------------------------------- the work left

  const IN_FLIGHT := 0
  const BUFFERED := 1
  const INPUT := 2
  const HELD := 3
  const HANDLER := 4
  const RETRY := 5

  function Cost(max: nat, m: Message, place: nat): nat {
    6 * (if Level(m) <= max then max + 1 - Level(m) else 1) + place
  }

  function Work(max: nat, q: seq<Message>, place: nat): nat {
    if q == [] then 0 else Cost(max, q[0], place) + Work(max, q[1..], place)
  }

  lemma {:induction false} WorkJoin(max: nat, p: seq<Message>, q: seq<Message>, place: nat)
    ensures Work(max, p + q, place) == Work(max, p, place) + Work(max, q, place)
  {
    hide Cost;
    if p == [] {
      assert p + q == q;
    } else {
      assert (p + q)[1..] == p[1..] + q;
      WorkJoin(max, p[1..], q, place);
    }
  }

  lemma WorkPush(max: nat, q: seq<Message>, m: Message, place: nat)
    ensures Work(max, q + [m], place) == Work(max, q, place) + Cost(max, m, place)
  {
    WorkJoin(max, q, [m], place);
    assert [m][1..] == [];
  }

  lemma {:induction false} WorkNearer(max: nat, q: seq<Message>, place: nat)
    requires place > 0
    ensures Work(max, q, place - 1) <= Work(max, q, place) && (q != [] ==> Work(max, q, place - 1) < Work(max, q, place))
  {
    if q != [] {
      WorkNearer(max, q[1..], place);
    }
  }

  function BrokerWork(max: nat, bp: BrokerProducer): nat {
    Work(max, bp.inFlight, IN_FLIGHT) + Work(max, bp.buffer, BUFFERED) + Work(max, bp.input, INPUT)
  }

  function BrokersWork(max: nat, bs: seq<BrokerProducer>): nat {
    if bs == [] then 0 else BrokerWork(max, bs[0]) + BrokersWork(max, bs[1..])
  }

  lemma {:induction false} BrokersWorkAt(max: nat, bs: seq<BrokerProducer>, b: nat, bp: BrokerProducer)
    requires b < |bs|
    ensures BrokersWork(max, bs[b := bp]) == BrokersWork(max, bs) - BrokerWork(max, bs[b]) + BrokerWork(max, bp)
  {
    hide BrokerWork;
    if b == 0 {
      assert bs[b := bp][1..] == bs[1..];
    } else {
      assert bs[b := bp][1..] == bs[1..][b - 1 := bp];
      BrokersWorkAt(max, bs[1..], b - 1, bp);
    }
  }

  function LevelsWork(max: nat, ls: seq<RetryLevel>): nat {
    if ls == [] then 0 else Work(max, ls[0].buf, HELD) + LevelsWork(max, ls[1..])
  }

  lemma {:induction false} LevelsWorkAt(max: nat, ls: seq<RetryLevel>, k: nat, l: RetryLevel)
    requires k < |ls|
    ensures LevelsWork(max, ls[k := l]) ==
            LevelsWork(max, ls) - Work(max, ls[k].buf, HELD) + Work(max, l.buf, HELD)
  {
    hide Work;
    if k == 0 {
      assert ls[k := l][1..] == ls[1..];
    } else {
      assert ls[k := l][1..] == ls[1..][k - 1 := l];
      LevelsWorkAt(max, ls[1..], k - 1, l);
    }
  }

  function TotalWork(s: State): nat {
    Work(s.max, s.handlerQueue, HANDLER) + Work(s.max, s.retryQueue, RETRY)
    + LevelsWork(s.max, s.retryState) + BrokersWork(s.max, s.brokers)
  }

  /** Closer to the end: the broker producer is given up, or there is less work. Nothing else of note changes. */
  predicate Closer(t: State, s: State) {
    && t.phase == s.phase && t.max == s.max && t.nextId == s.nextId
    && (t.current.Some? ==> s.current.Some?)
    && ((s.current.Some? && t.current.None?) || TotalWork(t) < TotalWork(s))
  }

  // ---------------------------------------------------------------- broker producers

  lemma RetryWork(s: State, m: Message)
    requires !m.Syn?
    ensures var t := RetryMessage(s, m);
            && TotalWork(t) < TotalWork(s) + Cost(s.max, m, IN_FLIGHT)
            && t.brokers == s.brokers && t.current == s.current && t.phase == s.phase && t.max == s.max
            && t.nextId == s.nextId
  {
    hide Work, LevelsWork, BrokersWork;
    if Level(m) < s.max {
      WorkPush(s.max, s.retryQueue, Raised(m), RETRY);
    }
  }

  lemma SetBrokerWork(s: State, b: nat, bp: BrokerProducer)
    requires b < |s.brokers|
    ensures TotalWork(SetBroker(s, b, bp)) ==
            TotalWork(s) - BrokerWork(s.max, s.brokers[b]) + BrokerWork(s.max, bp)
  {
    hide Work, LevelsWork, BrokerWork, BrokersWork;
    BrokersWorkAt(s.max, s.brokers, b, bp);
  }

  /** A broker producer that holds something can take a step. */
  lemma BrokerMoves(s: State, b: nat) returns (a: Action)
    requires b < |s.brokers| && s.brokers[b].Contents() != []
    requires OnlyData(s.brokers[b].inFlight) && OnlyData(s.brokers[b].buffer)
    ensures Closer(Next(s, a), s) && ForBroker(a)
  {
    hide Work, TotalWork, RetryMessage, BrokersWork;
    var bp := s.brokers[b];
    if bp.NeedsRetry() && bp.inFlight != [] {
      a := Receive(b, true);
      var rest := bp.(inFlight := bp.inFlight[1..]);
      SetBrokerWork(s, b, rest);
      WorkHead(s.max, bp.inFlight, IN_FLIGHT);
      assert bp.inFlight[0] in bp.inFlight;
      RetryWork(SetBroker(s, b, rest), bp.inFlight[0]);
    } else if bp.NeedsRetry() && bp.buffer != [] {
      a := Receive(b, true);
      var rest := bp.(buffer := bp.buffer[1..]);
      SetBrokerWork(s, b, rest);
      WorkHead(s.max, bp.buffer, BUFFERED);
      assert bp.buffer[0] in bp.buffer;
      RetryWork(SetBroker(s, b, rest), bp.buffer[0]);
    } else if bp.inFlight != [] {
      a := Respond(b, Accepted);
      SetBrokerWork(s, b, bp.(inFlight := []));
      AnsweredWork(s, b, bp);
      WorkHead(s.max, bp.inFlight, IN_FLIGHT);
      NoWork(s.max, IN_FLIGHT);
    } else if bp.buffer != [] {
      a := Flush(b);
      SetBrokerWork(s, b, bp.(inFlight := bp.buffer, buffer := []));
      WorkNearer(s.max, bp.buffer, BUFFERED);
      NoWork(s.max, BUFFERED);
      NoWork(s.max, IN_FLIGHT);
    } else {
      a := Receive(b, true);
      InputMoves(s, b);
    }
  }

  lemma AnsweredWork(s: State, b: nat, bp: BrokerProducer)
    requires b < |s.brokers|
    ensures TotalWork(ReturnSuccesses(SetBroker(s, b, bp.(inFlight := [])), bp.inFlight))
         == TotalWork(SetBroker(s, b, bp.(inFlight := [])))
  {}

  lemma InputMoves(s: State, b: nat)
    requires b < |s.brokers| && s.brokers[b].input != []
    requires s.brokers[b].NeedsRetry() ==> s.brokers[b].inFlight == [] && s.brokers[b].buffer == []
    ensures Closer(ReceiveStep(s, b, true), s)
  {
    hide Work, TotalWork, RetryMessage, BrokersWork;
    var bp := s.brokers[b];
    var m, rest := bp.input[0], bp.(input := bp.input[1..]);
    WorkHead(s.max, bp.input, INPUT);
    if m.Syn? {
      SetBrokerWork(s, b, rest.(retrying := false));
      SameWork(SetBroker(s, b, rest.(retrying := false)), s.waitGroup - 1);
    } else if bp.NeedsRetry() {
      var r := if m.Fin? && !bp.closing then rest.(retrying := false) else rest;
      SetBrokerWork(s, b, r);
      RetryWork(SetBroker(s, b, r), m);
    } else {
      SetBrokerWork(s, b, rest.(buffer := bp.buffer + [m]));
      WorkPush(s.max, bp.buffer, m, BUFFERED);
    }
  }

  lemma SameWork(s: State, w: int)
    ensures TotalWork(s.(waitGroup := w)) == TotalWork(s)
  {}

  lemma WorkHead(max: nat, q: seq<Message>, place: nat)
    requires q != []
    ensures Work(max, q, place) == Cost(max, q[0], place) + Work(max, q[1..], place)
    ensures Cost(max, q[0], place) == Cost(max, q[0], IN_FLIGHT) + place && Cost(max, q[0], IN_FLIGHT) >= 6
  {}

  lemma NoWork(max: nat, place: nat)
    ensures Work(max, [], place) == 0
  {}

  // ---------------------------------------------------------------- queues and the partition producer

  lemma RedispatchMoves(s: State)
    requires s.retryQueue != []
    ensures Closer(Next(s, Redispatch), s)
  {
    hide Work, LevelsWork, BrokersWork;
    WorkHead(s.max, s.retryQueue, RETRY);
    WorkPush(s.max, s.handlerQueue, s.retryQueue[0], HANDLER);
    CostAt(s.max, s.retryQueue[0], HANDLER);
  }

  lemma CostAt(max: nat, m: Message, place: nat)
    ensures Cost(max, m, place) == Cost(max, m, IN_FLIGHT) + place && Cost(max, m, IN_FLIGHT) >= 6
  {}

  lemma SendWork(s: State, m: Message)
    requires s.current.Some? && s.current.value < |s.brokers|
    ensures var t := Send(s, m);
            && TotalWork(t) == TotalWork(s) + Cost(s.max, m, INPUT)
            && t == s.(brokers := t.brokers) && |t.brokers| == |s.brokers|
  {
    hide TotalWork, Cost, Work;
    var b := s.current.value;
    var bp := s.brokers[b];
    SetBrokerWork(s, b, bp.(input := bp.input + [m]));
    WorkPush(s.max, bp.input, m, INPUT);
  }

  lemma {:induction false} SendAllWork(s: State, batch: seq<Message>)
    requires s.current.Some? && s.current.value < |s.brokers|
    ensures var t := SendAll(s, batch);
            && TotalWork(t) == TotalWork(s) + Work(s.max, batch, INPUT)
            && t == s.(brokers := t.brokers) && |t.brokers| == |s.brokers|
    decreases |batch|
  {
    hide TotalWork, Send, Cost;
    if batch != [] {
      SendWork(s, batch[0]);
      SendAllWork(Send(s, batch[0]), batch[1..]);
    }
  }

  lemma NoLeaders(level: nat)
    ensures LeaderFor([], level) == NoLeader
  {}

  predicate InRange(s: State) {
    s.current.Some? ==> s.current.value < |s.brokers|
  }

  lemma FlushLevelWork(s: State)
    requires s.highWatermark < |s.retryState| && InRange(s)
    ensures var t := FlushLevel(s, []);
            && TotalWork(t) <= TotalWork(s) && t.current == s.current && InRange(t) && t.phase == s.phase
            && t.max == s.max && t.nextId == s.nextId
  {
    hide TotalWork, SendAll, Work;
    var level := s.highWatermark;
    NoLeaders(level);
    var batch := s.retryState[level].buf;
    var s2 := s.(retryState := s.retryState[level := s.retryState[level].(buf := [])]);
    EmptiedWork(s, level);
    WorkNearer(s.max, batch, HELD);
    if s.current.Some? {
      SendAllWork(s2, batch);
    } else {
      ReturnedWork(s2, batch);
    }
  }

  lemma EmptiedWork(s: State, k: nat)
    requires k < |s.retryState|
    ensures TotalWork(s.(retryState := s.retryState[k := s.retryState[k].(buf := [])])) ==
            TotalWork(s) - Work(s.max, s.retryState[k].buf, HELD)
  {
    hide BrokersWork, Work;
    LevelsWorkAt(s.max, s.retryState, k, s.retryState[k].(buf := []));
    NoWork(s.max, HELD);
  }

  lemma ReturnedWork(s: State, batch: seq<Message>)
    ensures TotalWork(ReturnErrors(s, batch)) == TotalWork(s)
    ensures forall m :: TotalWork(ReturnError(s, m)) == TotalWork(s)
  {}

  lemma {:induction false} FlushWork(s: State)
    requires 0 < s.highWatermark < |s.retryState| && InRange(s)
    ensures var t := FlushRetryBuffers(s, []);
            && TotalWork(t) <= TotalWork(s) && t.current == s.current && t.phase == s.phase
            && t.max == s.max && t.nextId == s.nextId
    decreases s.highWatermark
  {
    hide TotalWork, FlushLevel;
    var s0 := s.(highWatermark := s.highWatermark - 1);
    FlushLevelFrame(s0, []);
    FlushLevelWork(s0);
    SameLevel(s, s.highWatermark - 1);
    var s1 := FlushLevel(s0, []);
    if !(s1.retryState[s1.highWatermark].expectChaser || s1.highWatermark == 0) {
      FlushWork(s1);
    }
  }

  lemma SameLevel(s: State, h: nat)
    ensures TotalWork(s.(highWatermark := h)) == TotalWork(s)
  {}

  lemma FlagWork(s: State, k: nat, flag: bool, w: int)
    requires k < |s.retryState|
    ensures TotalWork(s.(retryState := s.retryState[k := s.retryState[k].(expectChaser := flag)], waitGroup := w))
         == TotalWork(s)
  {
    hide Work, BrokersWork;
    LevelsWorkAt(s.max, s.retryState, k, s.retryState[k].(expectChaser := flag));
  }

  lemma HeldWork(s: State, k: nat, m: Message)
    requires k < |s.retryState|
    ensures TotalWork(s.(retryState := s.retryState[k := s.retryState[k].(buf := s.retryState[k].buf + [m])]))
         == TotalWork(s) + Cost(s.max, m, HELD)
  {
    hide Work, BrokersWork, Cost;
    LevelsWorkAt(s.max, s.retryState, k, s.retryState[k].(buf := s.retryState[k].buf + [m]));
    WorkPush(s.max, s.retryState[k].buf, m, HELD);
  }

  lemma PoppedWork(s: State)
    requires s.handlerQueue != []
    ensures TotalWork(s) == TotalWork(s.(handlerQueue := s.handlerQueue[1..])) + Cost(s.max, s.handlerQueue[0], HANDLER)
  {
    hide BrokersWork, LevelsWork, Cost;
  }

  lemma ForwardMoves(s: State, u: State, m: Message)
    requires InRange(u) && TotalWork(s) == TotalWork(u) + Cost(s.max, m, HANDLER)
    requires u.phase == s.phase && u.max == s.max && u.nextId == s.nextId && u.current == s.current
    ensures Closer(Forward(u, m, NoLeader), s)
  {
    hide TotalWork, Cost, Send;
    CostAt(s.max, m, HANDLER);
    CostAt(s.max, m, INPUT);
    if u.current.Some? {
      SendWork(u, m);
    } else {
      ReturnedWork(u, []);
    }
  }

  /** The partition producer can take a step, even if there is no leader. */
  lemma HandleMoves(s: State)
    requires Settled(s) && s.handlerQueue != []
    ensures Closer(Next(s, Handle([])), s)
  {
    hide TotalWork, Forward, FlushRetryBuffers, Books, Cost, NewHighWatermark, LeaderFor;
    var m, u := s.handlerQueue[0], s.(handlerQueue := s.handlerQueue[1..]);
    HeadMessage(s);
    CoreRange(s);
    PoppedWork(s);
    CostAt(s.max, m, HANDLER);
    CostAt(s.max, m, HELD);
    NoLeaders(Level(m));
    if Level(m) > s.highWatermark {
      WatermarkRaised(s, Level(m));
      RaisedMoves(s, u, Level(m), m);
    } else if Level(m) < s.highWatermark {
      FlagWork(u, Level(m), false, u.waitGroup - 1);
      HeldWork(u, Level(m), m);
    } else if s.highWatermark > 0 && m.Fin? {
      var u1 := u.(retryState := u.retryState[u.highWatermark := u.retryState[u.highWatermark].(expectChaser := false)]);
      FlagWork(u, u.highWatermark, false, u.waitGroup);
      FlushWork(u1);
      var u2 := FlushRetryBuffers(u1, []);
      SameWork(u2, u2.waitGroup - 1);
    } else {
      ForwardMoves(s, u, m);
    }
  }

  lemma RaisedMoves(s: State, u: State, level: nat, m: Message)
    requires u == s.(handlerQueue := u.handlerQueue) && 0 < level < |s.retryState| && s.current.Some?
    ensures Closer(Forward(NewHighWatermark(u, level), m, NoLeader), s)
  {
    hide TotalWork;
  }

  // ---------------------------------------------------------------- settling

  predicate NothingUnderWay(s: State) {
    && s.handlerQueue == [] && s.retryQueue == []
    && (forall k :: 0 <= k < |s.retryState| ==> s.retryState[k].buf == [])
    && (forall b :: 0 <= b < |s.brokers| ==> s.brokers[b].Contents() == [])
  }

  /** If queues and broker producers are empty, so are the buffers: a buffer waits for a fin under way. */
  lemma BuffersEmpty(s: State)
    requires Settled(s) && s.handlerQueue == [] && s.retryQueue == []
    requires forall b :: 0 <= b < |s.brokers| ==> s.brokers[b].Contents() == []
    ensures NothingUnderWay(s) && s.highWatermark == 0
  {
    hide Lane, BackOk, BrokersOk, Account;
    var h := s.highWatermark;
    if h > 0 {
      forall i | 0 <= i < |Layout(s)| ensures Fin(h) !in Layout(s)[i] {
        if i < |s.retryState| {
          BufferedData(s.retryState, h, i);
        }
      }
      NoneOf(Layout(s), Fin(h));
      assert false;
    }
    forall k | 0 <= k < |s.retryState| ensures s.retryState[k].buf == [] {
      assert BufferOk(s.retryState[k].buf, h, k);
    }
  }

  lemma {:induction false} NoneOf(parts: Parts, m: Message)
    requires forall i | 0 <= i < |parts| :: m !in parts[i]
    ensures Tally(parts, Copy(m)) == 0
  {
    if parts != [] {
      var n := |parts| - 1;
      NoneOf(parts[..n], m);
      assert m !in parts[n];
      NoWeight(parts[n], m);
    }
  }

  lemma {:induction false} NoWeight(q: seq<Message>, m: Message)
    requires m !in q
    ensures Weight(q, Copy(m)) == 0
  {
    if q != [] {
      NoWeight(q[..|q| - 1], m);
      assert q[|q| - 1] in q;
    }
  }

  /** As long as anything is under way, some actor can bring the producer closer to the end. */
  lemma SomeoneMoves(s: State) returns (a: Action)
    requires Settled(s) && !NothingUnderWay(s)
    ensures Closer(Next(s, a), s)
  {
    hide Closer, Structure, Books, Next;
    if b :| 0 <= b < |s.brokers| && s.brokers[b].Contents() != [] {
      OnlyDataInside(s, b);
      a := BrokerMoves(s, b);
    } else if s.retryQueue != [] {
      a := Redispatch;
      RedispatchMoves(s);
    } else if s.handlerQueue != [] {
      a := Handle([]);
      HandleMoves(s);
    } else {
      BuffersEmpty(s);
      assert false;
    }
  }

  lemma OnlyDataInside(s: State, b: nat)
    requires Core(s) && b < |s.brokers|
    ensures OnlyData(s.brokers[b].inFlight) && OnlyData(s.brokers[b].buffer)
  {
    hide Books;
    BrokerIsOk(s, b);
  }

  lemma {:induction false} RunJoin(s: State, a: seq<Action>, b: seq<Action>)
    ensures Run(s, a + b) == Run(Run(s, a), b)
    decreases |b|
  {
    hide Next;
    if b == [] {
      assert a + b == a;
    } else {
      var n := |b| - 1;
      assert (a + b)[..|a + b| - 1] == a + b[..n];
      RunJoin(s, a, b[..n]);
    }
  }

  /** From every state that keeps the invariant the producer can come to rest, and shutting down can finish. */
  lemma {:induction false} CanSettle(s: State) returns (actions: seq<Action>)
    requires Inv(s)
    ensures var t := Run(s, actions);
            Inv(t) && NothingUnderWay(t) && t.phase == s.phase && t.max == s.max && t.nextId == s.nextId
    decreases if s.current.Some? then 1 else 0, TotalWork(s)
  {
    hide TotalWork, Settled, Next, NothingUnderWay;
    if NothingUnderWay(s) {
      actions := [];
    } else {
      var a := SomeoneMoves(s);
      NextKeeps(s, a);
      var rest := CanSettle(Next(s, a));
      actions := [a] + rest;
      RunJoin(s, [a], rest);
      RunOne(s, a);
    }
  }

  lemma RunOne(s: State, a: Action)
    ensures Run(s, [a]) == Next(s, a)
  {
    hide Next;
    assert [a][..0] == [];
    assert Run(s, []) == s;
  }

  // ---------------------------------------------------------------- shutting down

  lemma {:induction false} EmptyParts(parts: Parts)
    requires forall i | 0 <= i < |parts| :: parts[i] == []
    ensures Tally(parts, Any) == 0
  {
    if parts != [] {
      EmptyParts(parts[..|parts| - 1]);
    }
  }

  lemma NobodyCounted(s: State)
    requires Books(s) && NothingUnderWay(s)
    ensures Live(s) == 0
  {
    hide Account, Chased;
    forall i | 0 <= i < |Layout(s)| ensures Layout(s)[i] == [] {
      var n := |s.retryState|;
      if i >= n + 2 {
        assert s.brokers[i - n - 2].Contents() == [];
      }
    }
    EmptyParts(Layout(s));
  }

  lemma FinishMoves(s: State)
    requires Inv(s) && NothingUnderWay(s) && s.phase.Draining?
    ensures Next(s, FinishShutdown).phase.Closed?
  {
    hide Structure, NothingUnderWay;
    NobodyCounted(s);
  }

  /** Whatever has happened, shutting down can come to its end, with every message answered. */
  lemma CanClose(s: State) returns (actions: seq<Action>)
    requires Inv(s)
    ensures Run(s, actions).phase.Closed? && Inv(Run(s, actions))
  {
    hide Settled, Next, NothingUnderWay;
    if s.phase.Closed? {
      return [];
    }
    var first := [BeginShutdown, TakeShutdown];
    RunKeeps(s, first);
    ShutdownTaken(s);
    var rest := CanSettle(Run(s, first));
    RunJoin(s, first, rest);
    var t := Run(s, first + rest);
    FinishMoves(t);
    NextKeeps(t, FinishShutdown);
    actions := first + rest + [FinishShutdown];
    RunJoin(s, first + rest, [FinishShutdown]);
    RunOne(t, FinishShutdown);
  }

  lemma ShutdownTaken(s: State)
    requires !s.phase.Closed?
    ensures Run(s, [BeginShutdown, TakeShutdown]).phase.Draining?
  {
    RunOne(s, BeginShutdown);
    RunJoin(s, [BeginShutdown], [TakeShutdown]);
    assert [BeginShutdown] + [TakeShutdown] == [BeginShutdown, TakeShutdown];
    RunOne(Next(s, BeginShutdown), TakeShutdown);
  }

  // ---------------------------------------------------------------- delivering

  /** A broker producer that has the message in its input, perhaps behind a syn, and does not send back. */
  lemma BrokerDelivers(s: State, b: nat, m: Message) returns (actions: seq<Action>)
    requires b < |s.brokers| && m.Data?
    requires s.brokers[b] == IDLE.(input := [Syn, m]) || s.brokers[b] == IDLE.(input := [m])
    ensures Run(s, actions).successes == s.successes + [m]
  {
    if s.brokers[b].input == [m] {
      actions := InputDelivers(s, b, m);
    } else {
      var t := Next(s, Receive(b, true));
      assert t.brokers[b] == IDLE.(input := [m]) && t.successes == s.successes;
      var rest := InputDelivers(t, b, m);
      actions := [Receive(b, true)] + rest;
      RunJoin(s, [Receive(b, true)], rest);
      RunOne(s, Receive(b, true));
    }
  }

  lemma InputDelivers(s: State, b: nat, m: Message) returns (actions: seq<Action>)
    requires b < |s.brokers| && m.Data? && s.brokers[b] == IDLE.(input := [m])
    ensures Run(s, actions).successes == s.successes + [m]
  {
    var s1 := Next(s, Receive(b, true));
    assert s1.brokers[b] == IDLE.(buffer := [m]) by {
      assert [] + [m] == [m] && [m][1..] == [];
    }
    var s2 := Next(s1, Flush(b));
    assert s2.brokers[b] == IDLE.(inFlight := [m]);
    var s3 := Next(s2, Respond(b, Accepted));
    assert s3.successes == s.successes + [m];
    actions := [Receive(b, true)] + [Flush(b)] + [Respond(b, Accepted)];
    RunOne(s, Receive(b, true));
    RunJoin(s, [Receive(b, true)], [Flush(b)]);
    RunOne(s1, Flush(b));
    RunJoin(s, [Receive(b, true)] + [Flush(b)], [Respond(b, Accepted)]);
    RunOne(s2, Respond(b, Accepted));
  }

  lemma RunFirst(s: State, a: Action, rest: seq<Action>)
    ensures Run(s, [a] + rest) == Run(Next(s, a), rest)
  {
    hide Next;
    RunJoin(s, [a], rest);
    RunOne(s, a);
  }

  predicate TakesMessages(s: State) {
    s.phase.Running? || s.phase.ShutdownSent?
  }

  lemma QueueEmpty(s: State)
    requires NothingUnderWay(s)
    ensures s.handlerQueue == [] && s.retryQueue == []
  {}

  lemma BrokerEmpty(s: State, b: nat)
    requires NothingUnderWay(s) && b < |s.brokers|
    ensures s.brokers[b].inFlight == [] && s.brokers[b].buffer == [] && s.brokers[b].input == []
  {
    assert s.brokers[b].Contents() == [];
  }

  /** A new message comes to a partition producer at rest. */
  lemma Submitted(s: State)
    requires NothingUnderWay(s) && TakesMessages(s)
    ensures Next(s, Submit(true)) ==
            s.(nextId := s.nextId + 1, waitGroup := s.waitGroup + 1, handlerQueue := [Data(s.nextId, 0)])
  {
    QueueEmpty(s);
    assert [] + [Data(s.nextId, 0)] == [Data(s.nextId, 0)];
  }

  lemma OpenedAt(s: State, m: Message)
    requires s.handlerQueue == [m] && m.Data? && m.retries == s.highWatermark == 0 && s.current.None?
    ensures var t := Next(s, Handle([At(|s.brokers|)]));
            && |t.brokers| == |s.brokers| + 1 && t.brokers[|s.brokers|] == IDLE.(input := [Syn, m])
            && t.successes == s.successes
  {
    assert [] + [Syn] + [m] == [Syn, m];
  }

  lemma SentTo(s: State, b: nat, m: Message)
    requires s.handlerQueue == [m] && m.Data? && m.retries == s.highWatermark == 0
    requires s.current == Some(b) && b < |s.brokers| && s.brokers[b].input == []
    ensures Next(s, Handle([])) ==
            s.(handlerQueue := [], brokers := s.brokers[b := s.brokers[b].(input := [m])])
  {
    assert [] + [m] == [m] && [m][1..] == [];
  }

  lemma SentBack(s: State, b: nat, m: Message)
    requires b < |s.brokers| && s.brokers[b].NeedsRetry() && m.Data? && m.retries < s.max && s.retryQueue == []
    requires s.brokers[b].inFlight == [] && s.brokers[b].buffer == [] && s.brokers[b].input == [m]
    ensures Next(s, Receive(b, true)) ==
            s.(retryQueue := [Raised(m)], brokers := s.brokers[b := s.brokers[b].(input := [])])
  {
    assert [] + [Raised(m)] == [Raised(m)] && [m][1..] == [];
  }

  lemma ComesBack(s: State, m: Message)
    requires s.retryQueue == [m] && s.handlerQueue == []
    ensures Next(s, Redispatch) == s.(retryQueue := [], handlerQueue := [m])
  {
    assert [] + [m] == [m] && [m][1..] == [];
  }

  /** Without a broker producer, the message opens one at the leader. */
  lemma OpensAndDelivers(s: State) returns (actions: seq<Action>)
    requires NothingUnderWay(s) && s.highWatermark == 0 && TakesMessages(s) && s.current.None?
    ensures Run(s, actions).successes == s.successes + [Data(s.nextId, 0)]
  {
    hide NothingUnderWay, Next, Run;
    var m, n, a := Data(s.nextId, 0), |s.brokers|, Handle([At(|s.brokers|)]);
    Submitted(s);
    var s1 := Next(s, Submit(true));
    OpenedAt(s1, m);
    var rest := BrokerDelivers(Next(s1, a), n, m);
    RunFirst(s1, a, rest);
    actions := [Submit(true)] + ([a] + rest);
    RunFirst(s, Submit(true), [a] + rest);
  }

  /** A broker producer in use that is fine takes the message. */
  lemma SendsAndDelivers(s: State, b: nat) returns (actions: seq<Action>)
    requires NothingUnderWay(s) && s.highWatermark == 0 && TakesMessages(s)
    requires s.current == Some(b) && b < |s.brokers| && !s.brokers[b].NeedsRetry()
    ensures Run(s, actions).successes == s.successes + [Data(s.nextId, 0)]
  {
    hide NothingUnderWay, Next, Run;
    var m := Data(s.nextId, 0);
    BrokerEmpty(s, b);
    Submitted(s);
    var s1 := Next(s, Submit(true));
    SentTo(s1, b, m);
    var rest := BrokerDelivers(Next(s1, Handle([])), b, m);
    RunFirst(s1, Handle([]), rest);
    actions := [Submit(true)] + ([Handle([])] + rest);
    RunFirst(s, Submit(true), [Handle([])] + rest);
  }

  /** A broker producer in use that sends back: the message comes back, and goes to a new leader. */
  lemma RetriesAndDelivers(s: State, b: nat) returns (actions: seq<Action>)
    requires NothingUnderWay(s) && s.highWatermark == 0 && TakesMessages(s) && 1 <= s.max && |s.retryState| == s.max + 1
    requires s.current == Some(b) && b < |s.brokers| && s.brokers[b].NeedsRetry()
    ensures Run(s, actions).successes == s.successes + [Data(s.nextId, 1)]
  {
    hide NothingUnderWay, Next, Run;
    var m := Data(s.nextId, 0);
    QueueEmpty(s);
    BrokerEmpty(s, b);
    Submitted(s);
    var s1 := Next(s, Submit(true));
    SentTo(s1, b, m);
    var s2 := Next(s1, Handle([]));
    SentBack(s2, b, m);
    var s3 := Next(s2, Receive(b, true));
    ComesBack(s3, Raised(m));
    var s4 := Next(s3, Redispatch);
    var a := Handle([NoLeader, At(|s4.brokers|)]);
    RaisedToNew(s4, b, Raised(m));
    var rest := BrokerDelivers(Next(s4, a), |s4.brokers|, Raised(m));
    RunFirst(s4, a, rest);
    var r3 := [Redispatch] + ([a] + rest);
    RunFirst(s3, Redispatch, [a] + rest);
    RunFirst(s2, Receive(b, true), r3);
    RunFirst(s1, Handle([]), [Receive(b, true)] + r3);
    actions := [Submit(true)] + ([Handle([])] + ([Receive(b, true)] + r3));
    RunFirst(s, Submit(true), [Handle([])] + ([Receive(b, true)] + r3));
  }

  lemma RaisedToNew(s: State, b: nat, m: Message)
    requires s.handlerQueue == [m] && m.Data? && m.retries == 1 && s.highWatermark == 0 && |s.retryState| >= 2
    requires s.current == Some(b) && b < |s.brokers|
    ensures var t := Next(s, Handle([NoLeader, At(|s.brokers|)]));
            && |t.brokers| == |s.brokers| + 1 && t.brokers[|s.brokers|] == IDLE.(input := [Syn, m])
            && t.successes == s.successes
  {
    assert [] + [Syn] + [m] == [Syn, m];
  }

  /**
    As long as the producer takes messages, there is a way for a further message to be acknowledged: what is
    under way comes to rest, and the message reaches a broker that accepts it, if need be by a retry.
   */
  lemma CanDeliver(s: State) returns (actions: seq<Action>, retries: nat)
    requires Inv(s) && TakesMessages(s)
    ensures Data(s.nextId, retries) in Run(s, actions).successes && retries <= 1
  {
    hide Next, NothingUnderWay;
    var first := CanSettle(s);
    var t := Run(s, first);
    AtRest(t);
    var rest := [];
    retries := 0;
    if t.current.None? {
      rest := OpensAndDelivers(t);
    } else if !t.brokers[t.current.value].NeedsRetry() {
      rest := SendsAndDelivers(t, t.current.value);
    } else {
      rest := RetriesAndDelivers(t, t.current.value);
      retries := 1;
    }
    actions := first + rest;
    RunJoin(s, first, rest);
    assert Run(s, actions).successes == t.successes + [Data(s.nextId, retries)];
  }

  lemma AtRest(s: State)
    requires Settled(s) && NothingUnderWay(s)
    ensures s.highWatermark == 0 && InRange(s) && 1 <= s.max && |s.retryState| == s.max + 1
  {
    hide Books;
    BuffersEmpty(s);
  }
}
