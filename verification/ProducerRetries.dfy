/**
  What a retriable error and a lost connection do. Everything that the broker producer holds for the partition
  goes back in order, one level up or to the errors; after a retriable error up to the fin, from which on the
  broker producer serves the partition again, and after a lost connection for good.
 */
module ProducerRetries {
  import opened ProducerProtocol
  import opened ProducerOutcomes
  import opened ProducerProgress

  /** Messages that are sent back, one level up. */
  function SentBack(max: nat, ms: seq<Message>): seq<Message> {
    if ms == [] then []
    else
      (match ms[0]
       case Data(id, r) => if r < max then [Data(id, r + 1)] else []
       case Fin(r) => if r < max then [Fin(r + 1)] else []
       case Syn => [])
      + SentBack(max, ms[1..])
  }

  /** Messages that have no retry left. */
  function GivenUp(max: nat, ms: seq<Message>): seq<Message> {
    if ms == [] then [] else (if !ms[0].Syn? && ms[0].retries >= max then [ms[0]] else []) + GivenUp(max, ms[1..])
  }

  function Syns(ms: seq<Message>): nat {
    if ms == [] then 0 else (if ms[0].Syn? then 1 else 0) + Syns(ms[1..])
  }

  /** The state once the messages are back and the broker producer is as given. */
  function Returned(s: State, b: nat, bp: BrokerProducer, ms: seq<Message>): State
    requires b < |s.brokers|
  {
    s.(brokers := s.brokers[b := bp], retryQueue := s.retryQueue + SentBack(s.max, ms),
       errors := s.errors + GivenUp(s.max, ms), waitGroup := s.waitGroup - |GivenUp(s.max, ms)| - Syns(ms))
  }

  function Receives(b: nat, es: seq<bool>): seq<Action> {
    seq(|es|, i requires 0 <= i < |es| => Receive(b, es[i]))
  }

  lemma ReceivesFirst(s: State, b: nat, es: seq<bool>)
    requires es != []
    ensures Run(s, Receives(b, es)) == Run(Next(s, Receive(b, es[0])), Receives(b, es[1..]))
  {
    assert Receives(b, es) == [Receive(b, es[0])] + Receives(b, es[1..]);
    RunFirst(s, Receive(b, es[0]), Receives(b, es[1..]));
  }

  /** One message that is sent back or given up, or a syn. */
  lemma OneMessage(max: nat, m: Message)
    ensures SentBack(max, [m]) ==
            match m
            case Data(id, r) => if r < max then [Data(id, r + 1)] else []
            case Fin(r) => if r < max then [Fin(r + 1)] else []
            case Syn => []
    ensures GivenUp(max, [m]) == if !m.Syn? && m.retries >= max then [m] else []
    ensures Syns([m]) == if m.Syn? then 1 else 0
  {
    assert [m][1..] == [];
    assert SentBack(max, [m][1..]) == [] && GivenUp(max, [m][1..]) == [] && Syns([m][1..]) == 0;
  }

  lemma FirstMessage(max: nat, m: Message, ms: seq<Message>)
    ensures SentBack(max, [m] + ms) == SentBack(max, [m]) + SentBack(max, ms)
    ensures GivenUp(max, [m] + ms) == GivenUp(max, [m]) + GivenUp(max, ms)
    ensures Syns([m] + ms) == Syns([m]) + Syns(ms)
  {
    OneMessage(max, m);
    assert ([m] + ms)[1..] == ms;
  }

  /** Sending back in two parts. */
  lemma ReturnedTwice(s: State, b: nat, bp1: BrokerProducer, m: Message, bp2: BrokerProducer, ms: seq<Message>)
    requires b < |s.brokers|
    ensures Returned(Returned(s, b, bp1, [m]), b, bp2, ms) == Returned(s, b, bp2, [m] + ms)
  {
    hide SentBack, GivenUp, Syns;
    FirstMessage(s.max, m, ms);
    var t := Returned(s, b, bp1, [m]);
    assert t.retryQueue + SentBack(s.max, ms) == s.retryQueue + SentBack(s.max, [m] + ms);
    assert t.errors + GivenUp(s.max, ms) == s.errors + GivenUp(s.max, [m] + ms);
    assert s.brokers[b := bp1][b := bp2] == s.brokers[b := bp2];
  }

  lemma NothingReturned(s: State, b: nat)
    requires b < |s.brokers|
    ensures Returned(s, b, s.brokers[b], []) == s
  {
    assert s.brokers[b := s.brokers[b]] == s.brokers;
  }

  predicate NoSyn(bp: BrokerProducer) {
    Syn !in bp.inFlight && Syn !in bp.buffer
  }

  /** The broker producer without the oldest message that it holds. */
  function Without(bp: BrokerProducer): BrokerProducer
    requires bp.Contents() != []
  {
    if bp.inFlight != [] then bp.(inFlight := bp.inFlight[1..])
    else if bp.buffer != [] then bp.(buffer := bp.buffer[1..])
    else
      var m := bp.input[0];
      bp.(input := bp.input[1..], retrying := bp.retrying && !m.Syn? && (bp.closing || !m.Fin?))
  }

  lemma RetryIs(s: State, b: nat, bp: BrokerProducer, m: Message)
    requires b < |s.brokers| && !m.Syn?
    ensures RetryMessage(SetBroker(s, b, bp), m) == Returned(s, b, bp, [m])
  {
    OneMessage(s.max, m);
    assert s.retryQueue + [] == s.retryQueue && s.errors + [] == s.errors;
  }

  /** One turn of a broker producer that sends everything back. */
  lemma OneBack(s: State, b: nat, encodes: bool)
    requires b < |s.brokers| && s.brokers[b].NeedsRetry() && s.brokers[b].Contents() != [] && NoSyn(s.brokers[b])
    ensures var bp := s.brokers[b];
            Next(s, Receive(b, encodes)) == Returned(s, b, Without(bp), [bp.Contents()[0]])
  {
    hide RetryMessage, Returned;
    var bp := s.brokers[b];
    var m := bp.Contents()[0];
    if bp.inFlight != [] {
      assert m == bp.inFlight[0];
      RetryIs(s, b, bp.(inFlight := bp.inFlight[1..]), m);
    } else if bp.buffer != [] {
      assert m == bp.buffer[0];
      RetryIs(s, b, bp.(buffer := bp.buffer[1..]), m);
    } else {
      assert m == bp.input[0];
      InputBack(s, b, encodes);
    }
  }

  lemma InputBack(s: State, b: nat, encodes: bool)
    requires b < |s.brokers| && s.brokers[b].NeedsRetry() && s.brokers[b].input != []
    requires s.brokers[b].inFlight == [] && s.brokers[b].buffer == []
    ensures Next(s, Receive(b, encodes)) == Returned(s, b, Without(s.brokers[b]), [s.brokers[b].input[0]])
  {
    var bp := s.brokers[b];
    var m := bp.input[0];
    OneMessage(s.max, m);
    assert s.retryQueue + [] == s.retryQueue && s.errors + [] == s.errors;
    if m.Syn? {
    } else {
      hide RetryMessage, Returned;
      var rest := bp.(input := bp.input[1..]);
      RetryIs(s, b, if m.Fin? && !bp.closing then rest.(retrying := false) else rest, m);
      if m.Data? {
        assert bp.retrying == (bp.retrying && !m.Syn? && (bp.closing || !m.Fin?));
      }
    }
  }

  /** The broker producer without the n oldest messages. */
  function WithoutAll(bp: BrokerProducer, n: nat): BrokerProducer
    requires n <= |bp.Contents()|
    decreases n
  {
    if n == 0 then bp
    else
      ContentsNext(bp);
      WithoutAll(Without(bp), n - 1)
  }

  lemma ContentsNext(bp: BrokerProducer)
    requires bp.Contents() != []
    ensures Without(bp).Contents() == bp.Contents()[1..]
  {}

  /** A broker producer sends the oldest n of its messages back, as long as none of them ends that. */
  lemma {:induction false} AllBack(s: State, b: nat, es: seq<bool>)
    requires b < |s.brokers| && NoSyn(s.brokers[b]) && |es| <= |s.brokers[b].Contents()|
    requires forall k :: 0 <= k < |es| ==> WithoutAll(s.brokers[b], k).NeedsRetry()
    ensures var bp := s.brokers[b];
            Run(s, Receives(b, es)) == Returned(s, b, WithoutAll(bp, |es|), bp.Contents()[..|es|])
    decreases |es|
  {
    hide Next, Returned;
    var bp := s.brokers[b];
    if es == [] {
      assert Receives(b, es) == [];
      NothingReturned(s, b);
    } else {
      var m := bp.Contents()[0];
      assert WithoutAll(bp, 0).NeedsRetry();
      ReceivesFirst(s, b, es);
      OneBack(s, b, es[0]);
      ContentsNext(bp);
      var t := Next(s, Receive(b, es[0]));
      ReturnedBroker(s, b, Without(bp), [m]);
      assert forall k :: 0 <= k < |es| - 1 ==> WithoutAll(Without(bp), k) == WithoutAll(bp, k + 1);
      AllBack(t, b, es[1..]);
      ReturnedTwice(s, b, Without(bp), m, WithoutAll(bp, |es|), Without(bp).Contents()[..|es| - 1]);
      assert bp.Contents()[..|es|] == [m] + bp.Contents()[1..][..|es| - 1];
    }
  }

  lemma ReturnedBroker(s: State, b: nat, bp: BrokerProducer, ms: seq<Message>)
    requires b < |s.brokers|
    ensures b < |Returned(s, b, bp, ms).brokers| && Returned(s, b, bp, ms).brokers[b] == bp
  {}

  // ---------------------------------------------------------------- a retriable error

  lemma {:induction false} WithoutSplit(bp: BrokerProducer, m: nat, n: nat)
    requires m + n <= |bp.Contents()|
    ensures n <= |WithoutAll(bp, m).Contents()|
    ensures WithoutAll(bp, m + n) == WithoutAll(WithoutAll(bp, m), n)
    decreases m
  {
    if m > 0 {
      ContentsNext(bp);
      WithoutSplit(Without(bp), m - 1, n);
    }
  }

  /** What is at the broker and in the buffer leaves the rest as it is. */
  lemma {:induction false} WithoutHeld(bp: BrokerProducer, n: nat)
    requires n <= |bp.inFlight| + |bp.buffer|
    ensures var left := WithoutAll(bp, n);
            && left.closing == bp.closing && left.retrying == bp.retrying && left.input == bp.input
            && (n == |bp.inFlight| + |bp.buffer| ==> left.inFlight == [] && left.buffer == [])
    decreases n
  {
    if n > 0 {
      ContentsNext(bp);
      WithoutHeld(Without(bp), n - 1);
    }
  }

  /** Data in the input does not end the sending back. */
  lemma {:induction false} WithoutData(bp: BrokerProducer, n: nat)
    requires bp.inFlight == [] && bp.buffer == [] && n <= |bp.input| && forall i :: 0 <= i < n ==> bp.input[i].Data?
    ensures WithoutAll(bp, n) == bp.(input := bp.input[n..])
    decreases n
  {
    if n > 0 {
      ContentsNext(bp);
      WithoutData(Without(bp), n - 1);
      assert bp.input[1..][n - 1..] == bp.input[n..];
    }
  }

  lemma StillRetrying(bp: BrokerProducer, d: nat, n: nat)
    requires bp.retrying && d <= |bp.input| && (forall i :: 0 <= i < d ==> bp.input[i].Data?)
    requires n <= |bp.inFlight| + |bp.buffer| + d
    ensures WithoutAll(bp, n).NeedsRetry()
  {
    var held := |bp.inFlight| + |bp.buffer|;
    if n <= held {
      WithoutHeld(bp, n);
    } else {
      WithoutHeld(bp, held);
      WithoutSplit(bp, held, n - held);
      WithoutData(WithoutAll(bp, held), n - held);
    }
  }

  lemma UpToFin(bp: BrokerProducer, ds: seq<Message>, k: nat, rest: seq<Message>)
    requires bp.retrying && !bp.closing && bp.input == ds + [Fin(k)] + rest && forall i :: 0 <= i < |ds| ==> ds[i].Data?
    ensures var n := |bp.inFlight| + |bp.buffer| + |ds| + 1;
            && n <= |bp.Contents()| && WithoutAll(bp, n) == BrokerProducer(false, false, [], [], rest)
            && bp.Contents()[..n] == bp.inFlight + bp.buffer + ds + [Fin(k)]
  {
    var held, d := |bp.inFlight| + |bp.buffer|, |ds|;
    WithoutHeld(bp, held);
    WithoutSplit(bp, held, d + 1);
    var left := WithoutAll(bp, held);
    WithoutData(left, d);
    WithoutSplit(left, d, 1);
    var last := WithoutAll(left, d);
    assert last.input == [Fin(k)] + rest && last.input[1..] == rest;
    assert WithoutAll(last, 1) == WithoutAll(Without(last), 0) == Without(last);
    assert bp.Contents()[..held + d + 1] == bp.inFlight + bp.buffer + ds + [Fin(k)];
  }

  /**
    A retriable error: the set at the broker, the buffer and the input up to and including the fin go back in
    order, one level up or to the errors, in as many turns, and then the broker producer serves the partition
    again with what came behind the fin.
   */
  lemma RetriableBounces(s: State, b: nat, ds: seq<Message>, k: nat, rest: seq<Message>, es: seq<bool>)
    requires b < |s.brokers| && !s.brokers[b].NeedsRetry() && s.brokers[b].inFlight != [] && NoSyn(s.brokers[b])
    requires s.brokers[b].input == ds + [Fin(k)] + rest && forall i :: 0 <= i < |ds| ==> ds[i].Data?
    requires |es| == |s.brokers[b].inFlight| + |s.brokers[b].buffer| + |ds| + 1
    ensures var bp := s.brokers[b];
            Run(Next(s, Respond(b, Retriable)), Receives(b, es)) ==
            Returned(s, b, BrokerProducer(false, false, [], [], rest), bp.inFlight + bp.buffer + ds + [Fin(k)])
  {
    hide Run, Returned, SentBack, GivenUp, Syns, WithoutAll;
    var bp := s.brokers[b].(retrying := true);
    var t := Next(s, Respond(b, Retriable));
    assert t == s.(brokers := s.brokers[b := bp]);
    UpToFin(bp, ds, k, rest);
    forall n | 0 <= n < |es|
      ensures WithoutAll(bp, n).NeedsRetry()
    {
      StillRetrying(bp, |ds|, n);
    }
    AllBack(t, b, es);
    ReturnedFrom(s, b, bp, BrokerProducer(false, false, [], [], rest), bp.Contents()[..|es|]);
  }

  lemma ReturnedFrom(s: State, b: nat, bp1: BrokerProducer, bp2: BrokerProducer, ms: seq<Message>)
    requires b < |s.brokers|
    ensures Returned(s.(brokers := s.brokers[b := bp1]), b, bp2, ms) == Returned(s, b, bp2, ms)
  {
    assert s.brokers[b := bp1][b := bp2] == s.brokers[b := bp2];
  }

  // ---------------------------------------------------------------- a lost connection

  lemma {:induction false} WithoutClosing(bp: BrokerProducer, n: nat)
    requires bp.closing && n <= |bp.Contents()|
    ensures WithoutAll(bp, n).closing && WithoutAll(bp, n).Contents() == bp.Contents()[n..]
    decreases n
  {
    if n > 0 {
      ContentsNext(bp);
      WithoutClosing(Without(bp), n - 1);
    }
  }

  /** After a lost connection everything that the broker producer holds goes back in order, and nothing is left. */
  lemma LostSendsBack(s: State, b: nat, es: seq<bool>) returns (bp: BrokerProducer)
    requires b < |s.brokers| && NoSyn(s.brokers[b]) && |es| == |s.brokers[b].Contents()|
    ensures bp.closing && bp.Contents() == []
    ensures Run(Next(s, LoseConnection(b)), Receives(b, es)) == Returned(s, b, bp, s.brokers[b].Contents())
  {
    hide Run, Returned, SentBack, GivenUp, Syns, WithoutAll;
    var lost := s.brokers[b].(closing := true);
    var t := Next(s, LoseConnection(b));
    assert t == s.(brokers := s.brokers[b := lost]) && lost.Contents() == s.brokers[b].Contents();
    forall n | 0 <= n < |es|
      ensures WithoutAll(lost, n).NeedsRetry()
    {
      WithoutClosing(lost, n);
    }
    WithoutClosing(lost, |es|);
    AllBack(t, b, es);
    bp := WithoutAll(lost, |es|);
    assert lost.Contents()[..|es|] == lost.Contents();
    ReturnedFrom(s, b, lost, bp, lost.Contents());
  }

  /** Broker producer b is known and closing. */
  predicate Lost(s: State, b: nat) {
    b < |s.brokers| && s.brokers[b].closing
  }

  lemma SendLost(s: State, m: Message, b: nat)
    requires Lost(s, b)
    ensures Lost(Send(s, m), b)
  {}

  lemma LeaderLost(s: State, leader: Leader, b: nat)
    requires Lost(s, b)
    ensures Lost(UpdateLeader(s, leader), b)
  {}

  lemma {:induction false} SendAllLost(s: State, batch: seq<Message>, b: nat)
    requires Lost(s, b)
    ensures Lost(SendAll(s, batch), b)
    decreases |batch|
  {
    if batch != [] {
      SendLost(s, batch[0], b);
      SendAllLost(Send(s, batch[0]), batch[1..], b);
    }
  }

  lemma FlushLost(s: State, leaders: seq<Leader>, b: nat)
    requires s.highWatermark < |s.retryState| && Lost(s, b)
    ensures Lost(FlushLevel(s, leaders), b)
  {
    hide UpdateLeader;
    var level := s.highWatermark;
    LeaderLost(s, LeaderFor(leaders, level), b);
    var s1 := if s.current.None? then UpdateLeader(s, LeaderFor(leaders, level)) else s;
    SendAllLost(s1.(retryState := s.retryState[level := s.retryState[level].(buf := [])]), s.retryState[level].buf, b);
  }

  lemma {:induction false} FlushesLost(s: State, leaders: seq<Leader>, b: nat)
    requires 0 < s.highWatermark <= |s.retryState| && Lost(s, b)
    ensures Lost(FlushRetryBuffers(s, leaders), b)
    decreases s.highWatermark
  {
    hide FlushLevel;
    var t := s.(highWatermark := s.highWatermark - 1);
    FlushLost(t, leaders, b);
    FlushLevelFrame(t, leaders);
    var s1 := FlushLevel(t, leaders);
    if !(s1.retryState[s1.highWatermark].expectChaser || s1.highWatermark == 0) {
      FlushesLost(s1, leaders, b);
    }
  }

  lemma ForwardLost(s: State, m: Message, leader: Leader, b: nat)
    requires Lost(s, b)
    ensures Lost(Forward(s, m, leader), b)
  {
    hide UpdateLeader, Send;
    LeaderLost(s, leader, b);
    var s1 := if s.current.None? then UpdateLeader(s, leader) else s;
    SendLost(s1, m, b);
  }

  lemma DispatchLost(s: State, m: Message, leaders: seq<Leader>, b: nat)
    requires Lost(s, b)
    ensures Lost(Dispatch(s, m, leaders), b)
  {
    hide Forward, FlushRetryBuffers;
    var leader := LeaderFor(leaders, Level(m));
    ForwardLost(s, m, leader, b);
    if Level(m) > s.highWatermark {
      assert Lost(NewHighWatermark(s, Level(m)), b);
      ForwardLost(NewHighWatermark(s, Level(m)), m, leader, b);
    } else if s.highWatermark > 0 && Level(m) == s.highWatermark && m.Fin? && s.highWatermark < |s.retryState| {
      var r := s.retryState[s.highWatermark];
      FlushesLost(s.(retryState := s.retryState[s.highWatermark := r.(expectChaser := false)]), leaders, b);
    }
  }

  lemma NextLost(s: State, a: Action, b: nat)
    requires Lost(s, b)
    ensures Lost(Next(s, a), b)
  {
    hide Dispatch;
    if a.Handle? && s.handlerQueue != [] {
      DispatchLost(s.(handlerQueue := s.handlerQueue[1..]), s.handlerQueue[0], a.leaders, b);
    }
  }

  /** A lost connection stays lost: in no later state of any run does a broker's answer through it count. */
  lemma {:induction false} LostForGood(s: State, b: nat, actions: seq<Action>, outcome: Outcome, id: nat)
    requires b < |s.brokers|
    ensures var t := Run(Next(s, LoseConnection(b)), actions);
            Lost(t, b) && !Answers(t, Respond(b, outcome), outcome, id)
    decreases |actions|
  {
    hide Next;
    if actions == [] {
      NowLost(s, b);
    } else {
      var n := |actions| - 1;
      LostForGood(s, b, actions[..n], outcome, id);
      NextLost(Run(Next(s, LoseConnection(b)), actions[..n]), actions[n], b);
    }
  }

  lemma NowLost(s: State, b: nat)
    requires b < |s.brokers|
    ensures Lost(Next(s, LoseConnection(b)), b)
  {}
}
