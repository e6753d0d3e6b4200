/**
  Why a message succeeds or fails. A message is acknowledged exactly if a broker has accepted the set that
  held it, and is returned as failed exactly for one of five causes. Messages are told by their numbers.
 */
module ProducerOutcomes {
  import opened Wrappers
  import opened ProducerProtocol
  import opened ProducerShape
  import opened ProducerInvariant
  import opened ProducerHandler
  import opened ProducerGuarantees

  predicate IsMessage(m: Message, id: nat) {
    m.Data? && m.id == id
  }

  predicate HasId(q: seq<Message>, id: nat) {
    exists i :: 0 <= i < |q| && IsMessage(q[i], id)
  }

  lemma HasIdJoin(p: seq<Message>, q: seq<Message>, id: nat)
    ensures HasId(p + q, id) <==> HasId(p, id) || HasId(q, id)
  {
    var r := p + q;
    assert forall i :: 0 <= i < |p| ==> r[i] == p[i];
    assert forall i :: 0 <= i < |q| ==> r[|p| + i] == q[i];
  }

  lemma HasIdOne(m: Message, id: nat)
    ensures HasId([m], id) <==> IsMessage(m, id)
  {
    assert [m][0] == m;
  }

  // ---------------------------------------------------------------- the causes

  /** The broker answers for the set that holds the message, and the broker producer still waits for it. */
  predicate Answers(s: State, a: Action, outcome: Outcome, id: nat) {
    && a.Respond? && a.outcome == outcome && a.broker < |s.brokers|
    && !s.brokers[a.broker].NeedsRetry() && HasId(s.brokers[a.broker].inFlight, id)
  }

  /** The dispatcher refuses the message: too large, or too late. */
  predicate RefusedBy(s: State, a: Action, id: nat) {
    a.Submit? && id == s.nextId && !s.phase.Closed? && (s.phase.Draining? || !a.valid)
  }

  /** The oldest message of a broker producer that sends everything back has no retry left. */
  predicate OutOfRetries(s: State, a: Action, id: nat) {
    && a.Receive? && a.broker < |s.brokers| && s.brokers[a.broker].NeedsRetry()
    && s.brokers[a.broker].Contents() != []
    && IsMessage(s.brokers[a.broker].Contents()[0], id) && s.brokers[a.broker].Contents()[0].retries >= s.max
  }

  predicate NotEncodable(s: State, a: Action, id: nat) {
    && a.Receive? && !a.encodes && a.broker < |s.brokers| && !s.brokers[a.broker].NeedsRetry()
    && s.brokers[a.broker].input != [] && IsMessage(s.brokers[a.broker].input[0], id)
  }

  /** The partition producer must find a leader for the message that it handles, and there is none. */
  predicate NobodyToSendTo(s: State, a: Action, id: nat) {
    && a.Handle? && s.handlerQueue != [] && IsMessage(s.handlerQueue[0], id)
    && LeaderFor(a.leaders, s.handlerQueue[0].retries).NoLeader?
    && s.handlerQueue[0].retries >= s.highWatermark
    && (s.handlerQueue[0].retries == s.highWatermark ==> s.current.None?)
  }

  /** No leader on the way down to level k, and no chaser to wait for above it. */
  predicate NobodyAt(s: State, leaders: seq<Leader>, k: nat) {
    && k < s.highWatermark < |s.retryState| && s.current.None?
    && (forall j :: k <= j < s.highWatermark ==> LeaderFor(leaders, j).NoLeader?)
    && (forall j :: k < j < s.highWatermark ==> !s.retryState[j].expectChaser)
  }

  /** A chaser comes home, and there is no leader for the buffered messages that it sets free. */
  ghost predicate NobodyToFlushTo(s: State, a: Action, id: nat) {
    && a.Handle? && s.handlerQueue != [] && s.handlerQueue[0] == Fin(s.highWatermark)
    && exists k: nat :: NobodyAt(s, a.leaders, k) && HasId(s.retryState[k].buf, id)
  }

  ghost predicate Fails(s: State, a: Action, id: nat) {
    || Answers(s, a, Rejected, id) || RefusedBy(s, a, id) || OutOfRetries(s, a, id) || NotEncodable(s, a, id)
    || NobodyToSendTo(s, a, id) || NobodyToFlushTo(s, a, id)
  }

  // ---------------------------------------------------------------- the partition producer

  lemma SendKeeps(s: State, m: Message)
    ensures Send(s, m).successes == s.successes && Send(s, m).errors == s.errors
    ensures Send(s, m).current == s.current && Send(s, m).retryState == s.retryState
    ensures Send(s, m).highWatermark == s.highWatermark
  {}

  lemma LeaderKeeps(s: State, leader: Leader)
    ensures var t := UpdateLeader(s, leader);
            && t.successes == s.successes && t.errors == s.errors && t.retryState == s.retryState
            && t.highWatermark == s.highWatermark
            && (leader.NoLeader? ==> t.current == s.current) && (leader.At? ==> t.current.Some?)
  {}

  lemma FlushLevelReturns(s: State, leaders: seq<Leader>)
    requires s.highWatermark < |s.retryState|
    ensures var t := FlushLevel(s, leaders);
            var fails := s.current.None? && LeaderFor(leaders, s.highWatermark).NoLeader?;
            && t.successes == s.successes && (t.current.None? <==> fails)
            && t.errors == s.errors + if fails then s.retryState[s.highWatermark].buf else []
  {
    hide UpdateLeader, LeaderFor, SendAll;
    var level := s.highWatermark;
    LeaderKeeps(s, LeaderFor(leaders, level));
    var s1 := if s.current.None? then UpdateLeader(s, LeaderFor(leaders, level)) else s;
    var s2 := s1.(retryState := s.retryState[level := s.retryState[level].(buf := [])]);
    SendAllFrame(s2, s.retryState[level].buf);
  }

  lemma {:induction false} FlushReturns(s: State, leaders: seq<Leader>, id: nat)
    requires 0 < s.highWatermark < |s.retryState|
    ensures var t := FlushRetryBuffers(s, leaders);
            && t.successes == s.successes
            && (HasId(t.errors, id) <==>
                  HasId(s.errors, id) || exists k: nat :: NobodyAt(s, leaders, k) && HasId(s.retryState[k].buf, id))
    decreases s.highWatermark
  {
    hide FlushLevel, LeaderFor, HasId;
    var h := s.highWatermark;
    var s0 := s.(highWatermark := h - 1);
    var s1 := FlushLevel(s0, leaders);
    FlushLevelFrame(s0, leaders);
    FlushLevelReturns(s0, leaders);
    HasIdJoin(s.errors, if s1.current.None? then s.retryState[h - 1].buf else [], id);
    NoIds(id);
    assert NobodyAt(s, leaders, h - 1) <==> s1.current.None?;
    if s.retryState[h - 1].expectChaser || h == 1 {
      forall k: nat | NobodyAt(s, leaders, k)
        ensures k == h - 1
      {
        NobodyStops(s, leaders, k);
      }
    } else {
      FlushReturns(s1, leaders, id);
      forall k: nat
        ensures NobodyAt(s, leaders, k) <==> (k == h - 1 && s1.current.None?) || NobodyAt(s1, leaders, k)
      {
        NobodyBelow(s, s1, leaders, k);
      }
      assert forall k: nat :: k < h - 1 ==> s1.retryState[k].buf == s.retryState[k].buf;
    }
  }

  lemma NobodyStops(s: State, leaders: seq<Leader>, k: nat)
    requires NobodyAt(s, leaders, k) && (s.retryState[s.highWatermark - 1].expectChaser || s.highWatermark == 1)
    ensures k == s.highWatermark - 1
  {}

  lemma NoIds(id: nat)
    ensures !HasId([], id)
  {}

  lemma NobodyBelow(s: State, s1: State, leaders: seq<Leader>, k: nat)
    requires 1 < s.highWatermark < |s.retryState| == |s1.retryState| && s1.highWatermark == s.highWatermark - 1
    requires forall j :: 0 <= j < |s.retryState| ==> s1.retryState[j].expectChaser == s.retryState[j].expectChaser
    requires !s.retryState[s1.highWatermark].expectChaser
    requires s1.current.None? <==> s.current.None? && LeaderFor(leaders, s1.highWatermark).NoLeader?
    ensures NobodyAt(s, leaders, k) <==> (k == s1.highWatermark && s1.current.None?) || NobodyAt(s1, leaders, k)
  {
    hide LeaderFor;
  }

  /** A message that is handled at once. */
  lemma ForwardReturns(s: State, m: Message, leader: Leader, id: nat)
    ensures var t := Forward(s, m, leader);
            && t.successes == s.successes
            && (HasId(t.errors, id) <==> HasId(s.errors, id) || (s.current.None? && leader.NoLeader? && IsMessage(m, id)))
  {
    hide UpdateLeader, HasId, Send;
    LeaderKeeps(s, leader);
    var s1 := if s.current.None? then UpdateLeader(s, leader) else s;
    SendKeeps(s1, m);
    HasIdJoin(s.errors, [m], id);
    HasIdOne(m, id);
  }

  lemma HandleReturns(s: State, a: Action, id: nat)
    requires Settled(s) && a.Handle? && s.handlerQueue != []
    ensures var t := Next(s, a);
            && t.successes == s.successes
            && (HasId(t.errors, id) <==> HasId(s.errors, id) || NobodyToSendTo(s, a, id) || NobodyToFlushTo(s, a, id))
  {
    hide HasId, Forward, FlushRetryBuffers, Books, NobodyAt;
    var m := s.handlerQueue[0];
    var u := s.(handlerQueue := s.handlerQueue[1..]);
    HeadMessage(s);
    CoreRange(s);
    if Level(m) > s.highWatermark {
      WatermarkRaised(s, Level(m));
      var raised := NewHighWatermark(u, Level(m));
      RaisedReturns(s, u, Level(m));
      ForwardReturns(raised, m, LeaderFor(a.leaders, Level(m)), id);
    } else if Level(m) == s.highWatermark && s.highWatermark > 0 && m.Fin? {
      var r := u.retryState[u.highWatermark];
      var u1 := u.(retryState := u.retryState[u.highWatermark := r.(expectChaser := false)]);
      FlushReturns(u1, a.leaders, id);
      forall k: nat
        ensures NobodyAt(u1, a.leaders, k) <==> NobodyAt(s, a.leaders, k)
      {
        SameNobody(s, u1, a.leaders, k);
      }
      assert forall k: nat :: k < s.highWatermark ==> u1.retryState[k].buf == s.retryState[k].buf;
      assert forall k: nat :: NobodyAt(s, a.leaders, k) ==> k < s.highWatermark by {
        NobodyRange(s, a.leaders);
      }
    } else if Level(m) == s.highWatermark {
      ForwardReturns(u, m, LeaderFor(a.leaders, Level(m)), id);
    }
  }

  lemma NobodyRange(s: State, leaders: seq<Leader>)
    ensures forall k: nat :: NobodyAt(s, leaders, k) ==> k < s.highWatermark
  {}

  lemma SameNobody(s: State, t: State, leaders: seq<Leader>, k: nat)
    requires t.highWatermark == s.highWatermark < |s.retryState| == |t.retryState| && t.current == s.current
    requires forall j :: 0 <= j < s.highWatermark ==> t.retryState[j].expectChaser == s.retryState[j].expectChaser
    ensures NobodyAt(t, leaders, k) <==> NobodyAt(s, leaders, k)
  {}

  lemma RaisedReturns(s: State, u: State, level: nat)
    requires u == s.(handlerQueue := u.handlerQueue) && level > 0 && s.current.Some?
    requires level < |s.retryState|
    ensures var t := NewHighWatermark(u, level);
            t.current.None? && t.successes == s.successes && t.errors == s.errors
  {}

  // ---------------------------------------------------------------- the broker producer

  lemma RespondReturns(s: State, a: Action, id: nat)
    requires a.Respond?
    ensures var t := Next(s, a);
            && (HasId(t.successes, id) <==> HasId(s.successes, id) || Answers(s, a, Accepted, id))
            && (HasId(t.errors, id) <==> HasId(s.errors, id) || Answers(s, a, Rejected, id))
  {
    hide HasId;
    NoIds(id);
    if a.broker < |s.brokers| {
      HasIdJoin(s.successes, s.brokers[a.broker].inFlight, id);
      HasIdJoin(s.errors, s.brokers[a.broker].inFlight, id);
    }
  }

  lemma RetryReturns(s: State, m: Message, id: nat)
    ensures var t := RetryMessage(s, m);
            && t.successes == s.successes
            && (HasId(t.errors, id) <==> HasId(s.errors, id) || (IsMessage(m, id) && m.retries >= s.max))
  {
    hide HasId;
    HasIdJoin(s.errors, [m], id);
    HasIdOne(m, id);
  }

  lemma ReceiveReturns(s: State, a: Action, id: nat)
    requires a.Receive? && a.broker < |s.brokers|
    ensures var t := Next(s, a);
            && t.successes == s.successes
            && (HasId(t.errors, id) <==> HasId(s.errors, id) || OutOfRetries(s, a, id) || NotEncodable(s, a, id))
  {
    hide HasId, RetryMessage;
    var bp := s.brokers[a.broker];
    if bp.NeedsRetry() && bp.inFlight != [] {
      RetryReturns(SetBroker(s, a.broker, bp.(inFlight := bp.inFlight[1..])), bp.inFlight[0], id);
    } else if bp.NeedsRetry() && bp.buffer != [] {
      RetryReturns(SetBroker(s, a.broker, bp.(buffer := bp.buffer[1..])), bp.buffer[0], id);
    } else if bp.input != [] {
      var m, rest := bp.input[0], bp.(input := bp.input[1..]);
      RetryReturns(SetBroker(s, a.broker, if m.Fin? && !bp.closing then rest.(retrying := false) else rest), m, id);
      HasIdJoin(s.errors, [m], id);
      HasIdOne(m, id);
    }
  }

  // ---------------------------------------------------------------- one step, and every run

  lemma StepReturns(s: State, a: Action, id: nat)
    requires Inv(s)
    ensures HasId(Next(s, a).successes, id) <==> HasId(s.successes, id) || Answers(s, a, Accepted, id)
    ensures HasId(Next(s, a).errors, id) <==> HasId(s.errors, id) || Fails(s, a, id)
  {
    hide HasId, Settled, Dispatch, ReceiveStep, RespondStep, FlushStep;
    match a
    case Handle(_) =>
      if s.handlerQueue != [] {
        HandleReturns(s, a, id);
      }
    case Receive(b, _) =>
      if b < |s.brokers| {
        ReceiveReturns(s, a, id);
      }
    case Respond(_, _) => RespondReturns(s, a, id);
    case Submit(_) =>
      HasIdJoin(s.errors, [Data(s.nextId, 0)], id);
      HasIdOne(Data(s.nextId, 0), id);
    case Flush(b) => FlushKeeps(s, b);
    case _ =>
  }

  lemma FlushKeeps(s: State, b: nat)
    ensures b < |s.brokers| ==> FlushStep(s, b).successes == s.successes && FlushStep(s, b).errors == s.errors
  {}

  /** At some point of the run the broker accepts the set that holds the message. */
  ghost predicate AcceptedInRun(s: State, actions: seq<Action>, id: nat) {
    exists n :: 0 <= n < |actions| && Answers(Run(s, actions[..n]), actions[n], Accepted, id)
  }

  ghost predicate FailsInRun(s: State, actions: seq<Action>, id: nat) {
    exists n :: 0 <= n < |actions| && Fails(Run(s, actions[..n]), actions[n], id)
  }

  lemma {:induction false} RunReturns(s: State, actions: seq<Action>, id: nat)
    requires Inv(s)
    ensures HasId(Run(s, actions).successes, id) <==> HasId(s.successes, id) || AcceptedInRun(s, actions, id)
    ensures HasId(Run(s, actions).errors, id) <==> HasId(s.errors, id) || FailsInRun(s, actions, id)
    decreases |actions|
  {
    hide HasId, Inv, Next, Answers, Fails;
    if actions != [] {
      var n := |actions| - 1;
      var front := actions[..n];
      RunReturns(s, front, id);
      RunKeeps(s, front);
      StepReturns(Run(s, front), actions[n], id);
      assert forall i :: 0 <= i < n ==> front[..i] == actions[..i];
    }
  }

  lemma FreshReturns(max: nat, prefetched: Leader, id: nat)
    ensures !HasId(Init(max, prefetched).successes, id) && !HasId(Init(max, prefetched).errors, id)
  {}

  /**
    A message is acknowledged if and only if, at some point of the run, a broker accepted the set that held
    it while its broker producer was waiting for the answer.
   */
  lemma AcknowledgedIff(max: nat, prefetched: Leader, actions: seq<Action>, id: nat)
    requires max >= 1
    ensures HasId(Run(Init(max, prefetched), actions).successes, id)
            <==> AcceptedInRun(Init(max, prefetched), actions, id)
  {
    hide HasId, Inv, Init, Run;
    InitHolds(max, prefetched);
    FreshReturns(max, prefetched, id);
    RunReturns(Init(max, prefetched), actions, id);
  }

  /**
    A message is returned as failed if and only if its set was rejected, the dispatcher refused it, it came
    back without a retry left, it could not be encoded, or there was no leader to send it to.
   */
  lemma FailedIff(max: nat, prefetched: Leader, actions: seq<Action>, id: nat)
    requires max >= 1
    ensures HasId(Run(Init(max, prefetched), actions).errors, id) <==> FailsInRun(Init(max, prefetched), actions, id)
  {
    hide HasId, Inv, Init, Run;
    InitHolds(max, prefetched);
    FreshReturns(max, prefetched, id);
    RunReturns(Init(max, prefetched), actions, id);
  }
}
