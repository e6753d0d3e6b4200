/**
  What the asynchronous producer promises for one partition, over every run: acknowledgements keep
  the order of submission, no message is lost or answered twice, retry chasers never go astray, and
  the producer closes only when nothing is left.
 */
module ProducerGuarantees {
  import opened Wrappers
  import opened ProducerProtocol
  import opened ProducerPath
  import opened ProducerShape
  import opened ProducerInvariant
  import opened ProducerHandler

  /** The invariant of whole states. A closed producer holds nothing. */
  ghost predicate Inv(s: State) {
    Settled(s) && (s.phase.Closed? ==> s.waitGroup == 0)
  }

  // ---------------------------------------------------------------- the broker producers

  /** What a broker producer holds, message by message. */
  lemma BrokerMessage(s: State, b: nat, m: Message)
    requires Structure(s) && b < |s.brokers| && m in s.brokers[b].Contents()
    ensures Level(m) <= s.max
    ensures m.Fin? ==> m.retries < s.max && m in s.brokers[b].input && s.brokers[b].NeedsRetry()
  {
    hide Structure, LevelsOk;
    BrokerIsOk(s, b);
    LevelsAreOk(s);
    var bp, v := s.brokers[b], View(s.brokers[b]);
    var i :| 0 <= i < |bp.Contents()| && bp.Contents()[i] == m;
    assert v[i] == Raised(m) && v[i] in v;
    assert ViewMessage(s.retryState, s.highWatermark, s.current == Some(b), bp.NeedsRetry(), v, v[i]);
    assert m in bp.inFlight || m in bp.buffer || m in bp.input;
  }

  /** The oldest message goes to retryMessage: back to the queue, or, at the last level, to the errors. */
  lemma Retried(s: State, t: State, b: nat, rest: BrokerProducer)
    requires Core(s) && b < |s.brokers| && View(s.brokers[b]) != [] && s.brokers[b].NeedsRetry()
    requires View(rest) == View(s.brokers[b])[1..] && OnlyData(rest.inFlight) && OnlyData(rest.buffer)
    requires !s.brokers[b].Contents()[0].Syn?
    requires s.brokers[b].Contents()[0].Data? ==> rest.NeedsRetry()
    requires t == RetryMessage(SetBroker(s, b, rest), s.brokers[b].Contents()[0])
    ensures Core(t)
  {
    hide Structure, Books;
    var m, v := s.brokers[b].Contents()[0], View(s.brokers[b]);
    BrokerMessage(s, b, m);
    if Level(m) >= s.max {
      assert Cut(v, 0, 1) == v[1..] && v[0..1] == [v[0]];
      FailFromBroker(s, t, b, 0, [m]);
    } else {
      Bounce(s, t, b);
    }
  }

  lemma ReceiveRetries(s: State, b: nat, encodes: bool)
    requires Core(s) && b < |s.brokers| && s.brokers[b].NeedsRetry()
    requires s.brokers[b].inFlight != [] || s.brokers[b].buffer != []
    ensures Core(ReceiveStep(s, b, encodes))
  {
    hide Core, ViewOk;
    CoreBroker(s, b);
    var bp := s.brokers[b];
    var rest := if bp.inFlight != [] then bp.(inFlight := bp.inFlight[1..]) else bp.(buffer := bp.buffer[1..]);
    assert rest.Contents() == bp.Contents()[1..];
    assert View(rest) == View(bp)[1..];
    var m := bp.Contents()[0];
    assert m in (if bp.inFlight != [] then bp.inFlight else bp.buffer);
    Retried(s, ReceiveStep(s, b, encodes), b, rest);
  }

  /** Nothing of this partition waits in a set while the syn of its session is still to come. */
  lemma SynFirst(levels: seq<RetryLevel>, hwm: nat, mine: bool, v: seq<Message>, n: nat)
    requires ViewOk(levels, hwm, mine, false, v) && n < |v| && v[n] == Syn
    ensures n == 0
  {
    assert n == 0 || ViewPair(hwm, v[0], v[n]);
    assert v[0] in v;
    assert ViewMessage(levels, hwm, mine, false, v, v[0]);
    if v[0].Data? {
      Held(levels, hwm, mine, false, v, v[0]);
    }
  }

  lemma ReceiveMarker(s: State, b: nat, encodes: bool)
    requires Core(s) && b < |s.brokers| && s.brokers[b].input != []
    requires s.brokers[b].NeedsRetry() ==> s.brokers[b].inFlight == [] && s.brokers[b].buffer == []
    requires s.brokers[b].input[0].Syn?
    ensures Core(ReceiveStep(s, b, encodes))
  {
    hide Core, ViewOk;
    CoreBroker(s, b);
    var bp, t := s.brokers[b], ReceiveStep(s, b, encodes);
    var v, n := View(bp), |bp.inFlight| + |bp.buffer|;
    assert bp.Contents()[n] == Syn;
    if !bp.NeedsRetry() {
      SynFirst(s.retryState, s.highWatermark, s.current == Some(b), v, n);
    }
    assert t.brokers[b].Contents() == bp.Contents()[1..];
    assert View(t.brokers[b]) == v[1..];
    Open(s, t, b);
  }

  lemma Batched(s: State, b: nat, m: Message)
    requires Core(s) && b < |s.brokers| && !s.brokers[b].NeedsRetry() && s.brokers[b].input != [] && s.brokers[b].input[0] == m
    requires m.Data?
    ensures Core(ReceiveStep(s, b, true))
  {
    hide Core, ViewOk;
    CoreBroker(s, b);
    var bp, t := s.brokers[b], ReceiveStep(s, b, true);
    assert t.brokers[b].Contents() == bp.Contents();
    assert View(t.brokers[b]) == View(bp);
    Regroup(s, t, b);
  }

  lemma NotEncoded(s: State, b: nat, m: Message)
    requires Core(s) && b < |s.brokers| && !s.brokers[b].NeedsRetry() && s.brokers[b].input != [] && s.brokers[b].input[0] == m
    requires m.Data?
    ensures Core(ReceiveStep(s, b, false))
  {
    hide Core, ViewOk;
    CoreBroker(s, b);
    var bp, t := s.brokers[b], ReceiveStep(s, b, false);
    var v, n := View(bp), |bp.inFlight| + |bp.buffer|;
    assert bp.Contents()[n] == m;
    assert t.brokers[b].Contents() == bp.Contents()[..n] + bp.Contents()[n + 1..];
    assert View(t.brokers[b]) == Cut(v, n, n + 1);
    assert v[n..n + 1] == [v[n]];
    FailFromBroker(s, t, b, n, [m]);
  }

  lemma ReceiveHeld(s: State, b: nat, encodes: bool)
    requires Core(s) && b < |s.brokers| && s.brokers[b].input != [] && !s.brokers[b].input[0].Syn?
    requires s.brokers[b].NeedsRetry() && s.brokers[b].inFlight == [] && s.brokers[b].buffer == []
    ensures Core(ReceiveStep(s, b, encodes))
  {
    hide Core;
    var bp := s.brokers[b];
    var m, popped := bp.input[0], bp.(input := bp.input[1..]);
    var rest := if m.Fin? && !bp.closing then popped.(retrying := false) else popped;
    assert bp.Contents() == bp.input;
    assert rest.Contents() == bp.Contents()[1..];
    assert View(rest) == View(bp)[1..];
    Retried(s, ReceiveStep(s, b, encodes), b, rest);
  }

  lemma ReceiveData(s: State, b: nat, encodes: bool)
    requires Core(s) && b < |s.brokers| && s.brokers[b].input != [] && !s.brokers[b].input[0].Syn?
    requires !s.brokers[b].NeedsRetry()
    ensures Core(ReceiveStep(s, b, encodes))
  {
    hide Structure, Books, ReceiveStep;
    var m := s.brokers[b].input[0];
    assert m in s.brokers[b].Contents();
    BrokerMessage(s, b, m);
    if encodes {
      Batched(s, b, m);
    } else {
      NotEncoded(s, b, m);
    }
  }

  lemma Received(s: State, b: nat, encodes: bool)
    requires Core(s) && b < |s.brokers|
    ensures Core(ReceiveStep(s, b, encodes))
  {
    hide Core;
    var bp := s.brokers[b];
    if bp.NeedsRetry() && (bp.inFlight != [] || bp.buffer != []) {
      ReceiveRetries(s, b, encodes);
    } else if bp.input != [] {
      if bp.input[0].Syn? {
        ReceiveMarker(s, b, encodes);
      } else if bp.NeedsRetry() {
        ReceiveHeld(s, b, encodes);
      } else {
        ReceiveData(s, b, encodes);
      }
    }
  }

  lemma Flushed(s: State, b: nat)
    requires Core(s) && b < |s.brokers|
    ensures Core(FlushStep(s, b))
  {
    hide Core, ViewOk;
    CoreBroker(s, b);
    var bp, t := s.brokers[b], FlushStep(s, b);
    if !bp.NeedsRetry() && bp.inFlight == [] {
      assert t.brokers[b].Contents() == bp.Contents();
      Regroup(s, t, b);
    }
  }

  lemma ConnectionLost(s: State, b: nat)
    requires Core(s) && b < |s.brokers|
    ensures Core(SetBroker(s, b, s.brokers[b].(closing := true)))
  {
    hide Core, ViewOk;
    CoreBroker(s, b);
    var bp, t := s.brokers[b], SetBroker(s, b, s.brokers[b].(closing := true));
    assert t.brokers[b].Contents() == bp.Contents();
    Regroup(s, t, b);
  }

  lemma Rejection(s: State, t: State, b: nat)
    requires Core(s) && b < |s.brokers|
    requires t == ReturnErrors(SetBroker(s, b, s.brokers[b].(inFlight := [])), s.brokers[b].inFlight)
    ensures Core(t)
  {
    hide Structure, Books;
    AcknowledgeCuts(s, t, b);
    FailFromBroker(s, t, b, 0, s.brokers[b].inFlight);
  }

  lemma Responded(s: State, b: nat, outcome: Outcome)
    requires Core(s) && b < |s.brokers|
    ensures Core(RespondStep(s, b, outcome))
  {
    hide Core, ViewOk;
    var bp, t := s.brokers[b], RespondStep(s, b, outcome);
    if !bp.NeedsRetry() && bp.inFlight != [] {
      match outcome
      case Accepted =>
        Acknowledge(s, t, b);
      case Rejected =>
        Rejection(s, t, b);
      case Retriable =>
        CoreBroker(s, b);
        assert t.brokers[b].Contents() == bp.Contents();
        Regroup(s, t, b);
    }
  }

  // ---------------------------------------------------------------- the dispatcher

  /** t is s after a fresh user message entered the handler queue. */
  ghost predicate Arrives(s: State, t: State) {
    t == s.(nextId := s.nextId + 1, waitGroup := s.waitGroup + 1, handlerQueue := s.handlerQueue + [Data(s.nextId, 0)])
  }

  /** Past the handler queue, every user message has been retried at least once. */
  lemma RetriedBehind(s: State, k: nat, y: Message)
    requires Structure(s) && |s.retryState| < k < |Layout(s)| && y in Layout(s)[k] && y.Data?
    ensures y.retries > 0
  {
    hide BackOk, Lane, LevelsOk, BrokersOk;
    if k > |s.retryState| + 1 {
      BrokerHeld(s, k - |s.retryState| - 2, y);
    }
  }

  lemma ArriveStructure(s: State, t: State)
    requires Structure(s) && Arrives(s, t)
    ensures Structure(t)
  {
    hide BackOk, Lane, LevelsOk, BrokersOk;
    LevelsAreOk(s);
    var n, m := |s.handlerQueue|, Data(s.nextId, 0);
    assert Back(t) == Back(s)[..n] + [m] + Back(s)[n..];
    BackInsert(s.retryState, s.highWatermark, Back(s), n, m);
    LaneInsert(s.highWatermark, Back(s), CurrentView(s), CurrentReady(s), n, m);
  }

  lemma Arrived(s: State, t: State)
    requires Core(s) && Arrives(s, t)
    ensures Core(t)
  {
    hide Structure, Ledger;
    var p, n, m := Layout(s), |s.retryState|, Data(s.nextId, 0);
    assert Layout(t) == p[n := p[n] + [m]];
    forall k, y: Message | n < k < |p| && y in p[k] && y.Data? ensures y.retries > 0 {
      RetriedBehind(s, k, y);
    }
    LedgerArrive(p, Layout(t), s.retryState, s.nextId, s.successes, s.errors, Live(s), n);
    ArriveStructure(s, t);
  }

  lemma SameStructure(s: State, t: State)
    requires Structure(s)
    requires t == s.(nextId := t.nextId, errors := t.errors, waitGroup := t.waitGroup, phase := t.phase)
    ensures Structure(t)
  {
    hide BackOk, Lane, LevelsOk, BrokersOk;
    assert Back(t) == Back(s) && CurrentView(t) == CurrentView(s) && CurrentReady(t) == CurrentReady(s);
  }

  lemma Refused(s: State, t: State)
    requires Core(s)
    requires t == s.(nextId := s.nextId + 1, errors := s.errors + [Data(s.nextId, 0)])
    ensures Core(t)
  {
    hide Structure, Ledger;
    assert Layout(t) == Layout(s);
    LedgerRefuse(Layout(s), s.retryState, s.nextId, s.successes, s.errors, Live(s));
    SameStructure(s, t);
  }

  lemma PhaseChanged(s: State, t: State)
    requires Core(s) && t == s.(phase := t.phase, waitGroup := t.waitGroup) && Live(t) == Live(s)
    ensures Core(t)
  {
    hide Structure, Ledger;
    assert Layout(t) == Layout(s);
    SameStructure(s, t);
  }

  lemma RedispatchOrder(s: State)
    requires Books(s) && s.retryQueue != []
    ensures var p, n := Layout(s), |s.retryState|; Ordered(p[n + 1 := p[n + 1][1..]][n := p[n] + [p[n + 1][0]]])
  {
    MoveLeft(Layout(s), |s.retryState| + 1, |s.retryState|);
  }

  lemma RedispatchStructure(s: State, t: State)
    requires Structure(s) && s.retryQueue != []
    requires t == s.(retryQueue := s.retryQueue[1..], handlerQueue := s.handlerQueue + [s.retryQueue[0]])
    ensures Structure(t)
  {
    hide BackOk, Lane, LevelsOk, BrokersOk;
    assert Back(t) == Back(s) && CurrentView(t) == CurrentView(s) && CurrentReady(t) == CurrentReady(s);
  }

  lemma Redispatched(s: State, t: State)
    requires Core(s) && s.retryQueue != []
    requires t == s.(retryQueue := s.retryQueue[1..], handlerQueue := s.handlerQueue + [s.retryQueue[0]])
    ensures Core(t)
  {
    hide Structure, Ledger;
    var p, n := Layout(s), |s.retryState|;
    assert Layout(t) == p[n + 1 := p[n + 1][1..]][n := p[n] + [p[n + 1][0]]];
    RedispatchOrder(s);
    LedgerMove(p, Layout(t), s.retryState, s.retryState, s.nextId, s.successes, s.errors, Live(s), n + 1, n, p[n + 1][0]);
    RedispatchStructure(s, t);
  }

  // ---------------------------------------------------------------- every step

  lemma Handled(s: State, leaders: seq<Leader>)
    requires Settled(s) && s.handlerQueue != []
    ensures var t := Dispatch(s.(handlerQueue := s.handlerQueue[1..]), s.handlerQueue[0], leaders);
            Settled(t) && t.phase == s.phase
  {
    hide Settled, Dispatch;
    if Level(s.handlerQueue[0]) > s.highWatermark {
      DispatchHigher(s, leaders);
    } else if Level(s.handlerQueue[0]) < s.highWatermark {
      DispatchLower(s, leaders);
    } else {
      DispatchLevel(s, leaders);
    }
  }

  predicate ForBroker(a: Action) {
    a.Receive? || a.Flush? || a.Respond? || a.LoseConnection?
  }

  /** What the steps of a broker producer leave alone. */
  lemma BrokerFrame(s: State, a: Action)
    requires ForBroker(a)
    ensures Steady(s, Next(s, a))
  {}

  lemma BrokerStep(s: State, a: Action)
    requires Settled(s) && ForBroker(a)
    ensures Settled(Next(s, a)) && Next(s, a).phase == s.phase
  {
    hide Core, ReceiveStep, FlushStep, RespondStep, SetBroker;
    BrokerFrame(s, a);
    if a.broker < |s.brokers| {
      match a
      case Receive(b, encodes) => Received(s, b, encodes);
      case Flush(b) => Flushed(s, b);
      case Respond(b, outcome) => Responded(s, b, outcome);
      case LoseConnection(b) => ConnectionLost(s, b);
    }
  }

  lemma QueueStep(s: State, a: Action)
    requires Settled(s) && !ForBroker(a) && !a.Handle? && !s.phase.Closed?
    ensures Settled(Next(s, a))
    ensures Next(s, a).phase.Closed? ==> Next(s, a).waitGroup == 0
  {
    hide Core;
    var t := Next(s, a);
    match a
    case Submit(valid) =>
      if s.phase.Draining? || !valid {
        Refused(s, t);
      } else {
        Arrived(s, t);
      }
    case Redispatch =>
      if s.retryQueue != [] {
        Redispatched(s, t);
      }
    case _ =>
      PhaseChanged(s, t);
  }

  // ---------------------------------------------------------------- a closed producer is empty

  lemma NothingLeft(s: State)
    requires Books(s) && Live(s) == 0
    ensures forall k | 0 <= k < |s.retryState| :: s.retryState[k].buf == []
    ensures s.handlerQueue == [] && s.retryQueue == []
    ensures forall b | 0 <= b < |s.brokers| :: s.brokers[b].Contents() == []
    ensures forall i | 0 <= i < |Layout(s)| :: Layout(s)[i] == []
  {
    hide Ledger;
    var p, n := Layout(s), |s.retryState|;
    forall i | 0 <= i < |p| ensures p[i] == [] {
      NothingAlive(p, s.retryState, s.nextId, s.successes, s.errors, i);
    }
    assert p[n] == [] && p[n + 1] == [];
    forall k | 0 <= k < n ensures s.retryState[k].buf == [] {
      assert p[k] == [];
    }
    forall b | 0 <= b < |s.brokers| ensures s.brokers[b].Contents() == [] {
      assert p[BrokerPart(s, b)] == View(s.brokers[b]) == [];
    }
  }

  lemma ClosedStep(s: State, a: Action)
    requires Inv(s) && s.phase.Closed?
    ensures Inv(Next(s, a)) && Next(s, a).phase.Closed?
  {
    hide Structure, Books;
    NothingLeft(s);
    if ForBroker(a) {
      BrokerStep(s, a);
      if a.broker < |s.brokers| {
        assert s.brokers[a.broker].Contents() == [];
      }
    }
  }

  // ---------------------------------------------------------------- every run

  /** Every step of every actor keeps the invariant. */
  lemma NextKeeps(s: State, a: Action)
    requires Inv(s)
    ensures Inv(Next(s, a))
  {
    hide Settled, Dispatch;
    if s.phase.Closed? {
      ClosedStep(s, a);
    } else if ForBroker(a) {
      BrokerStep(s, a);
    } else if a.Handle? {
      if s.handlerQueue != [] {
        Handled(s, a.leaders);
      }
    } else {
      QueueStep(s, a);
    }
  }

  lemma FreshStructure(s: State)
    requires 1 <= s.max && |s.retryState| == s.max + 1 && !s.crashed && s.highWatermark == 0 && s.current.None?
    requires forall k | 0 <= k < |s.retryState| :: s.retryState[k] == RetryLevel([], false)
    requires s.handlerQueue == [] && s.retryQueue == [] && s.brokers == []
    ensures Structure(s)
  {
    assert Back(s) == [] && CurrentView(s) == [];
    LaneNone(0, [], [], CurrentReady(s));
  }

  lemma InitHolds(max: nat, prefetched: Leader)
    requires max >= 1
    ensures Inv(Init(max, prefetched))
  {
    hide Structure, Ledger, UpdateLeader;
    var s := State(max, 0, [], [], 0, seq(max + 1, i => RetryLevel([], false)), None, [], [], [], 0, Running, false);
    FreshStructure(s);
    LedgerEmpty(Layout(s), s.retryState);
    LeaderUpdated(s, prefetched);
  }

  lemma {:induction false} RunKeeps(s: State, actions: seq<Action>)
    requires Inv(s)
    ensures Inv(Run(s, actions))
    decreases |actions|
  {
    hide Inv, Next;
    if actions != [] {
      var n := |actions| - 1;
      RunKeeps(s, actions[..n]);
      NextKeeps(Run(s, actions[..n]), actions[n]);
    }
  }

  // ---------------------------------------------------------------- the guarantees

  /** A state that some run of a producer with at least one retry reaches. */
  ghost predicate Reachable(s: State) {
    exists max: nat, prefetched, actions :: max >= 1 && s == Run(Init(max, prefetched), actions)
  }

  lemma ReachableInv(s: State)
    requires Reachable(s)
    ensures Inv(s)
  {
    hide Inv, Init, Run;
    var max: nat, prefetched, actions :| max >= 1 && s == Run(Init(max, prefetched), actions);
    InitHolds(max, prefetched);
    RunKeeps(Init(max, prefetched), actions);
  }

  /** Acknowledged messages appear in the order in which the partition first received them. */
  lemma OrderKept(s: State)
    requires Reachable(s)
    ensures forall i, j | 0 <= i < j < |s.successes| ::
              s.successes[i].Data? && s.successes[j].Data? && s.successes[i].id < s.successes[j].id
  {
    hide Reachable, Structure, Ordered, Older, OncePerId, Chased;
    ReachableInv(s);
    assert Increasing(s.successes);
    forall i | 0 <= i < |s.successes| ensures s.successes[i].Data? {
      assert s.successes[i] in s.successes;
    }
  }

  /** Every message handed in is in exactly one place: acknowledged, failed, or on its way. The wait
      group counts what is on its way, markers included, and the shutdown request. */
  lemma Conserved(s: State)
    requires Reachable(s)
    ensures forall id: nat ::
              Weight(s.successes, User(id)) + Weight(s.errors, User(id)) + Tally(Layout(s), User(id))
              == if id < s.nextId then 1 else 0
    ensures s.waitGroup == Tally(Layout(s), Any) + (if s.phase.ShutdownSent? then 1 else 0)
  {
    hide Reachable, Structure, Ordered, Older, Increasing, Chased;
    ReachableInv(s);
    assert OncePerId(Layout(s), s.nextId, s.successes, s.errors);
  }

  /** A closed producer has answered every message exactly once, and holds nothing. */
  lemma ClosedIsEmpty(s: State)
    requires Reachable(s) && s.phase.Closed?
    ensures s.handlerQueue == [] && s.retryQueue == []
    ensures forall k | 0 <= k < |s.retryState| :: s.retryState[k].buf == []
    ensures forall b | 0 <= b < |s.brokers| :: s.brokers[b].Contents() == []
    ensures forall id: nat | id < s.nextId :: Weight(s.successes, User(id)) + Weight(s.errors, User(id)) == 1
  {
    hide Reachable, Structure, Ledger;
    ReachableInv(s);
    NothingLeft(s);
    forall id: nat | id < s.nextId ensures Weight(s.successes, User(id)) + Weight(s.errors, User(id)) == 1 {
      EmptyTally(Layout(s), User(id));
      Conserved(s);
    }
  }

  /** Retry levels and chasers: no crash on a missing broker producer or level, retries stay within
      Retry.Max, a chaser is expected exactly when one fin of its level is under way, and a fin is
      never batched, acknowledged or reported to the user: it only meets producers that send it back. */
  lemma ChasersKept(s: State)
    requires Reachable(s)
    ensures !s.crashed && s.highWatermark <= s.max && |s.retryState| == s.max + 1
    ensures forall k | 1 <= k <= s.max ::
              && (s.retryState[k].expectChaser ==> k <= s.highWatermark)
              && Tally(Layout(s), Copy(Fin(k))) == if s.retryState[k].expectChaser then 1 else 0
    ensures forall m | m in s.handlerQueue + s.retryQueue :: Level(m) <= s.max
    ensures forall b, m | 0 <= b < |s.brokers| && m in s.brokers[b].Contents() ::
              Level(m) <= s.max && (m.Fin? ==> m in s.brokers[b].input && s.brokers[b].NeedsRetry())
    ensures forall m | m in s.successes + s.errors :: m.Data?
  {
    hide Reachable, Structure, Books;
    ReachableInv(s);
    ChaserLevels(s);
    ChaserTallies(s);
    forall b, m | 0 <= b < |s.brokers| && m in s.brokers[b].Contents()
      ensures Level(m) <= s.max && (m.Fin? ==> m in s.brokers[b].input && s.brokers[b].NeedsRetry())
    {
      BrokerMessage(s, b, m);
    }
  }

  lemma ChaserLevels(s: State)
    requires Structure(s)
    ensures !s.crashed && s.highWatermark <= s.max && |s.retryState| == s.max + 1
    ensures forall k | 1 <= k <= s.max :: s.retryState[k].expectChaser ==> k <= s.highWatermark
    ensures forall m | m in s.handlerQueue + s.retryQueue :: Level(m) <= s.max
  {
    hide Lane, BrokersOk;
    forall m | m in s.handlerQueue + s.retryQueue ensures Level(m) <= s.max {
      assert BackMessage(s.retryState, s.highWatermark, m);
    }
  }

  lemma ChaserTallies(s: State)
    requires Books(s) && |s.retryState| == s.max + 1
    ensures forall k | 1 <= k <= s.max :: Tally(Layout(s), Copy(Fin(k))) == if s.retryState[k].expectChaser then 1 else 0
    ensures forall m | m in s.successes + s.errors :: m.Data?
  {
    hide Ordered, Older, OncePerId;
    assert Increasing(s.successes) && OnlyData(s.errors);
    forall m | m in s.successes + s.errors ensures m.Data? {
      assert m in s.successes || m in s.errors;
    }
  }
}
