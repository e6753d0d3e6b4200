/**
  The retry protocol of the asynchronous producer, for one topic-partition, as a state machine.

  Actors and queues (kafka/async_producer.go):
    dispatcher and topicProducer   hand messages, in order, to `handlerQueue`
    retryHandler                   the unbounded FIFO `retryQueue` that feeds the dispatcher
    partitionProducer              `highWatermark`, `retryState` and the current broker producer
    brokerProducer                 one record per object ever used by this partition

  A broker producer is shared by many partitions. What the other partitions do to it shows here as
  steps that may happen at any time: a connection that breaks, a flush, a response.
 */
module ProducerProtocol {
  import opened Wrappers

  /** A ProducerMessage: user data, or one of the two markers sent between the actors. `id` numbers
      user messages in the order in which the partition first received them. */
  datatype Message =
    | Data(id: nat, retries: nat)
    | Fin(retries: nat)
    | Syn

  /** `retrying` says that currentRetries holds an error for this partition. `inFlight` is the
      partition's share of the one set that is at the broker, or is being returned from there. */
  datatype BrokerProducer = BrokerProducer(
    closing: bool,
    retrying: bool,
    inFlight: seq<Message>,
    buffer: seq<Message>,
    input: seq<Message>)
  {
    predicate NeedsRetry() {
      closing || retrying
    }

    /** Everything the broker producer still holds for this partition, oldest first. */
    function Contents(): seq<Message> {
      inFlight + buffer + input
    }
  }

  const IDLE := BrokerProducer(false, false, [], [], [])

  datatype RetryLevel = RetryLevel(buf: seq<Message>, expectChaser: bool)

  datatype Phase = Running | ShutdownSent | Draining | Closed

  datatype State = State(
    max: nat,                       // Producer.Retry.Max
    nextId: nat,
    handlerQueue: seq<Message>,
    retryQueue: seq<Message>,
    highWatermark: nat,
    retryState: seq<RetryLevel>,
    current: Option<nat>,           // index into `brokers`
    brokers: seq<BrokerProducer>,
    successes: seq<Message>,
    errors: seq<Message>,
    waitGroup: int,                 // asyncProducer.inFlight
    phase: Phase,
    crashed: bool)                  // nil dereference or index out of range

  /** What the metadata said about the leader: none, or the broker producer of that broker. An index
      beyond the known ones stands for a broker producer that this partition has not used before. */
  datatype Leader = NoLeader | At(broker: nat)

  datatype Outcome = Accepted | Rejected | Retriable

  datatype Action =
    | Submit(valid: bool)
    | Redispatch
    | Handle(leaders: seq<Leader>)
    | Receive(broker: nat, encodes: bool)
    | Flush(broker: nat)
    | Respond(broker: nat, outcome: Outcome)
    | LoseConnection(broker: nat)
    | BeginShutdown
    | TakeShutdown
    | FinishShutdown

  // ---------------------------------------------------------------- returning messages

  function ReturnError(s: State, m: Message): State {
    s.(errors := s.errors + [m], waitGroup := s.waitGroup - 1)
  }

  function ReturnErrors(s: State, batch: seq<Message>): State {
    s.(errors := s.errors + batch, waitGroup := s.waitGroup - |batch|)
  }

  function ReturnSuccesses(s: State, batch: seq<Message>): State {
    s.(successes := s.successes + batch, waitGroup := s.waitGroup - |batch|)
  }

  function Raised(m: Message): Message {
    match m
    case Data(id, r) => Data(id, r + 1)
    case Fin(r) => Fin(r + 1)
    case Syn => Syn
  }

  function Level(m: Message): nat {
    if m.Syn? then 0 else m.retries
  }

  function RetryMessage(s: State, m: Message): State {
    if Level(m) >= s.max then ReturnError(s, m) else s.(retryQueue := s.retryQueue + [Raised(m)])
  }

  // ---------------------------------------------------------------- partitionProducer

  /** pp.brokerProducer.input <- m */
  function Send(s: State, m: Message): State {
    match s.current
    case Some(b) =>
      if b < |s.brokers|
      then s.(brokers := s.brokers[b := s.brokers[b].(input := s.brokers[b].input + [m])])
      else s.(crashed := true)
    case None => s.(crashed := true)
  }

  function LeaderFor(leaders: seq<Leader>, level: nat): Leader {
    if level < |leaders| then leaders[level] else NoLeader
  }

  function UpdateLeader(s: State, leader: Leader): State {
    match leader
    case NoLeader => s
    case At(b) =>
      var s1 := if b < |s.brokers| then s.(current := Some(b))
                else s.(current := Some(|s.brokers|), brokers := s.brokers + [IDLE]);
      Send(s1.(waitGroup := s1.waitGroup + 1), Syn)
  }

  function NewHighWatermark(s: State, level: nat): State
    requires level > 0
  {
    if level >= |s.retryState| || s.current.None? then s.(crashed := true) else
    var s1 := s.(highWatermark := level,
                 retryState := s.retryState[level := s.retryState[level].(expectChaser := true)],
                 waitGroup := s.waitGroup + 1);
    Send(s1, Fin(level - 1)).(current := None)
  }

  function SendAll(s: State, batch: seq<Message>): State
    decreases |batch|
  {
    if batch == [] then s else SendAll(Send(s, batch[0]), batch[1..])
  }

  /** One turn of the loop in flushRetryBuffers, after the level went down to `highWatermark`. */
  function FlushLevel(s: State, leaders: seq<Leader>): State
    requires s.highWatermark < |s.retryState|
  {
    var level := s.highWatermark;
    var batch := s.retryState[level].buf;
    var s1 := if s.current.None? then UpdateLeader(s, LeaderFor(leaders, level)) else s;
    var s2 := s1.(retryState := s.retryState[level := s.retryState[level].(buf := [])]);
    if s1.current.None? then ReturnErrors(s2, batch) else SendAll(s2, batch)
  }

  function FlushRetryBuffers(s: State, leaders: seq<Leader>): State
    requires 0 < s.highWatermark <= |s.retryState|
    decreases s.highWatermark
  {
    var s1 := FlushLevel(s.(highWatermark := s.highWatermark - 1), leaders);
    FlushLevelFrame(s.(highWatermark := s.highWatermark - 1), leaders);
    if s1.retryState[s1.highWatermark].expectChaser || s1.highWatermark == 0 then s1
    else FlushRetryBuffers(s1, leaders)
  }

  lemma SendFrame(s: State, m: Message)
    ensures Send(s, m) == s.(brokers := Send(s, m).brokers, crashed := Send(s, m).crashed)
    ensures |Send(s, m).brokers| == |s.brokers|
  {}

  lemma {:induction false} SendAllFrame(s: State, batch: seq<Message>)
    ensures SendAll(s, batch) == s.(brokers := SendAll(s, batch).brokers, crashed := SendAll(s, batch).crashed)
    decreases |batch|
  {
    if batch != [] {
      SendAllFrame(Send(s, batch[0]), batch[1..]);
      SendFrame(s, batch[0]);
    }
  }

  lemma FlushLevelFrame(s: State, leaders: seq<Leader>)
    requires s.highWatermark < |s.retryState|
    ensures FlushLevel(s, leaders).highWatermark == s.highWatermark && FlushLevel(s, leaders).phase == s.phase
    ensures FlushLevel(s, leaders).retryState
         == s.retryState[s.highWatermark := s.retryState[s.highWatermark].(buf := [])]
  {
    var level := s.highWatermark;
    var s1 := if s.current.None? then UpdateLeader(s, LeaderFor(leaders, level)) else s;
    var s2 := s1.(retryState := s.retryState[level := s.retryState[level].(buf := [])]);
    SendAllFrame(s2, s.retryState[level].buf);
  }

  /** The tail of the dispatch loop: find a broker producer if there is none, and send. */
  function Forward(s: State, m: Message, leader: Leader): State {
    var s1 := if s.current.None? then UpdateLeader(s, leader) else s;
    if s1.current.None? then ReturnError(s1, m) else Send(s1, m)
  }

  /** partitionProducer.dispatch on one message taken from its queue. */
  function Dispatch(s: State, m: Message, leaders: seq<Leader>): State {
    var leader := LeaderFor(leaders, Level(m));
    if Level(m) > s.highWatermark then
      Forward(NewHighWatermark(s, Level(m)), m, leader)
    else if s.highWatermark > 0 && Level(m) < s.highWatermark then
      if Level(m) >= |s.retryState| then s.(crashed := true)
      else
        var r := s.retryState[Level(m)];
        if m.Fin? then
          s.(retryState := s.retryState[Level(m) := r.(expectChaser := false)], waitGroup := s.waitGroup - 1)
        else
          s.(retryState := s.retryState[Level(m) := r.(buf := r.buf + [m])])
    else if s.highWatermark > 0 && m.Fin? then
      if s.highWatermark >= |s.retryState| then s.(crashed := true)
      else
        var r := s.retryState[s.highWatermark];
        var s1 := s.(retryState := s.retryState[s.highWatermark := r.(expectChaser := false)]);
        var s2 := FlushRetryBuffers(s1, leaders);
        s2.(waitGroup := s2.waitGroup - 1)
    else Forward(s, m, leader)
  }

  // ---------------------------------------------------------------- brokerProducer

  function SetBroker(s: State, b: nat, bp: BrokerProducer): State
    requires b < |s.brokers|
  {
    s.(brokers := s.brokers[b := bp])
  }

  /** The run loop of a broker producer, one message at a time. A set that failed is handed to
      retryMessages before anything else is read from the input. */
  function ReceiveStep(s: State, b: nat, encodes: bool): State
    requires b < |s.brokers|
  {
    var bp := s.brokers[b];
    if bp.NeedsRetry() && bp.inFlight != [] then
      RetryMessage(SetBroker(s, b, bp.(inFlight := bp.inFlight[1..])), bp.inFlight[0])
    else if bp.NeedsRetry() && bp.buffer != [] then
      RetryMessage(SetBroker(s, b, bp.(buffer := bp.buffer[1..])), bp.buffer[0])
    else if bp.input == [] then s
    else
      var m := bp.input[0];
      var rest := bp.(input := bp.input[1..]);
      if m.Syn? then
        SetBroker(s, b, rest.(retrying := false)).(waitGroup := s.waitGroup - 1)
      else if bp.NeedsRetry() then
        RetryMessage(SetBroker(s, b, if m.Fin? && !bp.closing then rest.(retrying := false) else rest), m)
      else if encodes then
        SetBroker(s, b, rest.(buffer := bp.buffer + [m]))
      else
        ReturnError(SetBroker(s, b, rest), m)
  }

  /** output <- buffer: possible only while the bridge is idle. */
  function FlushStep(s: State, b: nat): State
    requires b < |s.brokers|
  {
    var bp := s.brokers[b];
    if bp.NeedsRetry() || bp.inFlight != [] then s
    else SetBroker(s, b, bp.(inFlight := bp.buffer, buffer := []))
  }

  /** handleSuccess for this partition's block, and handleError for a request that did not encode. */
  function RespondStep(s: State, b: nat, outcome: Outcome): State
    requires b < |s.brokers|
  {
    var bp := s.brokers[b];
    if bp.NeedsRetry() || bp.inFlight == [] then s
    else
      match outcome
      case Accepted => ReturnSuccesses(SetBroker(s, b, bp.(inFlight := [])), bp.inFlight)
      case Rejected => ReturnErrors(SetBroker(s, b, bp.(inFlight := [])), bp.inFlight)
      case Retriable => SetBroker(s, b, bp.(retrying := true))
  }

  // ---------------------------------------------------------------- the whole system

  /** newPartitionProducer, and the leader that dispatch prefetches. */
  function Init(max: nat, prefetched: Leader): State {
    var s := State(max, 0, [], [], 0, seq(max + 1, i => RetryLevel([], false)), None, [], [], [], 0, Running, false);
    UpdateLeader(s, prefetched)
  }

  function Next(s: State, a: Action): State {
    match a
    case Submit(valid) =>
      var m := Data(s.nextId, 0);
      var s1 := s.(nextId := s.nextId + 1);
      if s.phase.Closed? then s
      else if s.phase.Draining? then s1.(errors := s1.errors + [m])
      else if !valid then ReturnError(s1.(waitGroup := s1.waitGroup + 1), m)
      else s1.(waitGroup := s1.waitGroup + 1, handlerQueue := s1.handlerQueue + [m])
    case Redispatch =>
      if s.retryQueue == [] then s
      else s.(retryQueue := s.retryQueue[1..], handlerQueue := s.handlerQueue + [s.retryQueue[0]])
    case Handle(leaders) =>
      if s.handlerQueue == [] then s
      else Dispatch(s.(handlerQueue := s.handlerQueue[1..]), s.handlerQueue[0], leaders)
    case Receive(b, encodes) => if b < |s.brokers| then ReceiveStep(s, b, encodes) else s
    case Flush(b) => if b < |s.brokers| then FlushStep(s, b) else s
    case Respond(b, outcome) => if b < |s.brokers| then RespondStep(s, b, outcome) else s
    case LoseConnection(b) => if b < |s.brokers| then SetBroker(s, b, s.brokers[b].(closing := true)) else s
    case BeginShutdown =>
      if s.phase.Running? then s.(phase := ShutdownSent, waitGroup := s.waitGroup + 1) else s
    case TakeShutdown =>
      if s.phase.ShutdownSent? then s.(phase := Draining, waitGroup := s.waitGroup - 1) else s
    case FinishShutdown =>
      if s.phase.Draining? && s.waitGroup == 0 then s.(phase := Closed) else s
  }

  function Run(s: State, actions: seq<Action>): State
    decreases |actions|
  {
    if actions == [] then s else Next(Run(s, actions[..|actions| - 1]), actions[|actions| - 1])
  }
}
