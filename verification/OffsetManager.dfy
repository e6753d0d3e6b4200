/**
  The offset manager: consumers mark offsets, a flush commits the marked ones to the broker, and a mark
  that was acknowledged is clean. Users may mark and reset at any time, also between two steps of a
  flush; flushes follow one another.
 */
module OffsetManager {
  import opened Wrappers
  import opened Wire

  datatype Key = Key(topic: string, partition: int)

  datatype Mark = Mark(offset: int, metadata: string)

  /** A partition offset manager. */
  datatype Pom = Pom(mark: Mark, dirty: bool, done: bool)

  // ---------------------------------------------------------------- one partition

  function MarkOffset(p: Pom, m: Mark): Pom {
    if m.offset > p.mark.offset then p.(mark := m, dirty := true) else p
  }

  function ResetOffset(p: Pom, m: Mark): Pom {
    if m.offset <= p.mark.offset then p.(mark := m, dirty := true) else p
  }

  function UpdateCommitted(p: Pom, m: Mark): Pom {
    if p.mark == m then p.(dirty := false) else p
  }

  /** Errors of a commit that leave the partition as it is. */
  datatype CommitError = NoError | Redispatch | TellUser | LoadInProgress

  // ---------------------------------------------------------------- the protocol

  /** Where the flush is: reading the partitions, waiting for the broker, or reading its answer. */
  datatype Phase =
    | Idle
    | Building(todo: set<Key>, blocks: map<Key, Mark>)
    | Waiting(blocks: map<Key, Mark>)
    | Handling(todo: set<Key>, blocks: map<Key, Mark>, errors: map<Key, CommitError>)

  /** `acked` is the last commit of a partition that the broker acknowledged, or the value fetched first. */
  datatype State = State(poms: map<Key, Pom>, acked: map<Key, Mark>, phase: Phase)

  datatype Action =
    | Manage(key: Key, fetched: Mark)
    | UserMarks(key: Key, mark: Mark)
    | UserResets(key: Key, mark: Mark)
    | AsyncClose(key: Key)
    | StartFlush
    | ReadPartition(key: Key)
    | Send
    | Answer(errors: map<Key, CommitError>)
    | NoAnswer
    | HandlePartition(key: Key)
    | EndFlush
    | Release(force: bool)

  predicate Init(s: State) {
    s == State(map[], map[], Idle)
  }

  /** The lock on the set of partitions is free. */
  predicate Unlocked(s: State) {
    s.phase.Idle? || s.phase.Waiting?
  }

  predicate Due(p: Pom, force: bool) {
    p.done && (force || !p.dirty)
  }

  function Released(poms: map<Key, Pom>, force: bool): map<Key, Pom> {
    map k | k in poms && !Due(poms[k], force) :: poms[k]
  }

  predicate Enabled(s: State, a: Action) {
    match a
    case Manage(k, _) => Unlocked(s) && k !in s.poms
    case UserMarks(k, _) => k in s.poms
    case UserResets(k, _) => k in s.poms
    case AsyncClose(k) => k in s.poms
    case StartFlush => s.phase.Idle?
    case ReadPartition(k) => s.phase.Building? && k in s.phase.todo && k in s.poms
    case Send => s.phase.Building? && s.phase.todo == {}
    case Answer(_) => s.phase.Waiting?
    case NoAnswer => s.phase.Waiting?
    case HandlePartition(k) => s.phase.Handling? && k in s.phase.todo && k in s.poms
    case EndFlush => s.phase.Handling? && s.phase.todo == {}
    case Release(_) => s.phase.Idle?
  }

  /** A partition's part of the answer. */
  function Handled(s: State, k: Key): State
    requires s.phase.Handling? && k in s.poms
  {
    var phase := Handling(s.phase.todo - {k}, s.phase.blocks, s.phase.errors);
    if k in s.phase.blocks && k in s.phase.errors && s.phase.errors[k].NoError? then
      var m := s.phase.blocks[k];
      s.(poms := s.poms[k := UpdateCommitted(s.poms[k], m)], acked := s.acked[k := m], phase := phase)
    else s.(phase := phase)
  }

  function Apply(s: State, a: Action): State
    requires Enabled(s, a)
  {
    match a
    case Manage(k, fetched) =>
      s.(poms := s.poms[k := Pom(fetched, false, false)], acked := s.acked[k := fetched])
    case UserMarks(k, m) => s.(poms := s.poms[k := MarkOffset(s.poms[k], m)])
    case UserResets(k, m) => s.(poms := s.poms[k := ResetOffset(s.poms[k], m)])
    case AsyncClose(k) => s.(poms := s.poms[k := s.poms[k].(done := true)])
    case StartFlush => s.(phase := Building(s.poms.Keys, map[]))
    case ReadPartition(k) =>
      var blocks := if s.poms[k].dirty then s.phase.blocks[k := s.poms[k].mark] else s.phase.blocks;
      s.(phase := Building(s.phase.todo - {k}, blocks))
    case Send => s.(phase := if s.phase.blocks == map[] then Idle else Waiting(s.phase.blocks))
    case Answer(errors) => s.(phase := Handling(s.poms.Keys, s.phase.blocks, errors))
    case NoAnswer => s.(phase := Idle)
    case HandlePartition(k) => Handled(s, k)
    case EndFlush => s.(phase := Idle)
    case Release(force) => s.(poms := Released(s.poms, force))
  }

  predicate Next(s: State, t: State, a: Action) {
    Enabled(s, a) && t == Apply(s, a)
  }

  // ---------------------------------------------------------------- what every run keeps

  /** The blocks of the request that are still to be handled. */
  function InFlight(phase: Phase): map<Key, Mark> {
    match phase
    case Idle => map[]
    case Building(_, blocks) => blocks
    case Waiting(blocks) => blocks
    case Handling(todo, blocks, _) => map k | k in blocks && k in todo :: blocks[k]
  }

  ghost predicate CleanIsCommitted(s: State) {
    forall k :: k in s.poms && !s.poms[k].dirty ==> k in s.acked && s.poms[k].mark == s.acked[k]
  }

  ghost predicate FlightIsDirty(s: State) {
    forall k :: k in InFlight(s.phase) ==> k in s.poms && s.poms[k].dirty
  }

  ghost predicate Inv(s: State) {
    CleanIsCommitted(s) && FlightIsDirty(s)
  }

  lemma InitHolds(s: State)
    requires Init(s)
    ensures Inv(s)
  {}

  lemma HandledKeeps(s: State, k: Key)
    requires Inv(s) && Enabled(s, HandlePartition(k))
    ensures Inv(Handled(s, k))
  {
    assert k in s.phase.blocks ==> k in InFlight(s.phase);
  }

  lemma NextKeeps(s: State, t: State, a: Action)
    requires Inv(s) && Next(s, t, a)
    ensures Inv(t)
  {
    match a {
      case HandlePartition(k) => HandledKeeps(s, k);
      case Answer(errors) =>
        assert forall k :: k in InFlight(t.phase) ==> k in InFlight(s.phase);
      case Release(force) =>
        assert InFlight(s.phase) == map[];
      case _ =>
    }
  }

  ghost predicate Run(states: seq<State>, actions: seq<Action>) {
    && |states| == |actions| + 1
    && Init(states[0])
    && forall i :: 0 <= i < |actions| ==> Next(states[i], states[i + 1], actions[i])
  }

  lemma {:induction false} RunKeeps(states: seq<State>, actions: seq<Action>, i: nat)
    requires Run(states, actions) && i < |states|
    ensures Inv(states[i])
  {
    if i == 0 {
      InitHolds(states[0]);
    } else {
      RunKeeps(states, actions, i - 1);
      assert Next(states[i - 1], states[i], actions[i - 1]);
      NextKeeps(states[i - 1], states[i], actions[i - 1]);
    }
  }

  /**
    In every state of every run, whatever is marked, reset or closed between the steps of a flush, a clean
    partition holds exactly what the broker acknowledged last, or what was fetched first.
   */
  lemma CommitTracking(states: seq<State>, actions: seq<Action>, i: nat, k: Key)
    requires Run(states, actions) && i < |states| && k in states[i].poms && !states[i].poms[k].dirty
    ensures k in states[i].acked && states[i].poms[k].mark == states[i].acked[k]
  {
    RunKeeps(states, actions, i);
  }

  /** A release that is not forced drops only partitions whose mark the broker has acknowledged. */
  lemma ReleaseIsSafe(states: seq<State>, actions: seq<Action>, i: nat, k: Key)
    requires Run(states, actions) && i < |actions| && actions[i] == Release(false)
    requires k in states[i].poms && k !in states[i + 1].poms
    ensures k in states[i].acked && states[i].poms[k].mark == states[i].acked[k] && states[i].poms[k].done
  {
    assert Next(states[i], states[i + 1], actions[i]);
    RunKeeps(states, actions, i);
  }

  /** An acknowledgement of an older mark does not make a newer one clean. */
  lemma OldAckStaysDirty(s: State, k: Key)
    requires Inv(s) && Enabled(s, HandlePartition(k)) && k in s.phase.blocks && s.poms[k].mark != s.phase.blocks[k]
    ensures Handled(s, k).poms[k].dirty
  {
    assert k in InFlight(s.phase);
  }

  // ---------------------------------------------------------------- what marks and resets come to

  /** The larger offset counts: a mark that is ahead is stored and makes the partition dirty, any other is ignored. */
  lemma MarkStep(s: State, t: State, k: Key, m: Mark)
    requires Next(s, t, UserMarks(k, m))
    ensures k in t.poms && t.poms - {k} == s.poms - {k} && t.acked == s.acked && t.phase == s.phase
    ensures var was, now := s.poms[k], t.poms[k];
            && now.mark.offset >= was.mark.offset && now.mark.offset >= m.offset
            && (now.mark == m || now.mark == was.mark) && now.done == was.done
            && (m.offset <= was.mark.offset ==> now == was)
            && (m.offset > was.mark.offset ==> now.mark.metadata == m.metadata && now.dirty)
  {}

  /** The smaller offset counts, and on a tie the new metadata. */
  lemma ResetStep(s: State, t: State, k: Key, m: Mark)
    requires Next(s, t, UserResets(k, m))
    ensures k in t.poms && t.poms - {k} == s.poms - {k} && t.acked == s.acked && t.phase == s.phase
    ensures var was, now := s.poms[k], t.poms[k];
            && now.mark.offset <= was.mark.offset && now.mark.offset <= m.offset
            && (now.mark == m || now.mark == was.mark) && now.done == was.done
            && (m.offset > was.mark.offset ==> now == was)
            && (m.offset == was.mark.offset ==> now.mark.metadata == m.metadata)
            && (m.offset <= was.mark.offset ==> now.dirty)
  {}

  /** Everything but its user leaves the mark of a partition alone. */
  lemma OthersKeepMark(s: State, t: State, a: Action, k: Key)
    requires Next(s, t, a) && k in s.poms && k in t.poms
    requires !(a.UserMarks? && a.key == k) && !(a.UserResets? && a.key == k)
    ensures t.poms[k].mark == s.poms[k].mark
  {}

  /** A partition is managed all the way from state i to state n, and not reset on the way. */
  ghost predicate OnlyMarked(states: seq<State>, actions: seq<Action>, k: Key, i: nat, n: nat)
    requires |states| == |actions| + 1 && n < |states|
  {
    && (forall j :: i <= j <= n ==> k in states[j].poms)
    && (forall j :: i <= j < n ==> !(actions[j].UserResets? && actions[j].key == k))
  }

  ghost predicate MarkedWith(actions: seq<Action>, k: Key, i: nat, n: nat, m: Mark)
    requires n <= |actions|
  {
    exists j :: i <= j < n && actions[j] == UserMarks(k, m)
  }

  /**
    As long as a partition is not reset, its mark is the furthest of the one it had and of all that its user
    has marked since, over every run.
   */
  lemma {:induction false} FurthestMark(states: seq<State>, actions: seq<Action>, k: Key, i: nat, n: nat)
    requires Run(states, actions) && i <= n < |states| && OnlyMarked(states, actions, k, i, n)
    ensures var was, now := states[i].poms[k].mark, states[n].poms[k].mark;
            && now.offset >= was.offset && (now == was || MarkedWith(actions, k, i, n, now))
            && (forall m :: MarkedWith(actions, k, i, n, m) ==> m.offset <= now.offset)
    decreases n - i
  {
    if i < n {
      FurthestMark(states, actions, k, i, n - 1);
      var a := actions[n - 1];
      assert Next(states[n - 1], states[n], a);
      if a.UserMarks? && a.key == k {
        MarkStep(states[n - 1], states[n], k, a.mark);
      } else {
        OthersKeepMark(states[n - 1], states[n], a, k);
      }
      forall m | MarkedWith(actions, k, i, n, m)
        ensures MarkedWith(actions, k, i, n - 1, m) || a == UserMarks(k, m)
      {}
    }
  }

  /** The value that a partition begins with is the one that was fetched. */
  lemma FetchedFirst(s: State, t: State, k: Key, fetched: Mark)
    requires Next(s, t, Manage(k, fetched))
    ensures k in t.poms && t.poms[k] == Pom(fetched, false, false) && k in t.acked && t.acked[k] == fetched
    ensures t.poms - {k} == s.poms
  {}

  /** The flush is between reading the partitions and the broker's answer. */
  predicate Requesting(s: State) {
    s.phase.Building? || s.phase.Waiting?
  }

  /**
    A flush that reads a dirty partition sends the mark that it had then, whatever its user does before the
    broker answers; a partition that is clean then is left out.
   */
  lemma {:induction false} RequestHasMark(states: seq<State>, actions: seq<Action>, k: Key, i: nat, n: nat)
    requires Run(states, actions) && i < n < |states| && actions[i] == ReadPartition(k)
    requires forall j :: i < j <= n ==> Requesting(states[j])
    ensures k in states[i].poms && Requesting(states[n])
    ensures var pom, blocks := states[i].poms[k], states[n].phase.blocks;
            if pom.dirty then k in blocks && blocks[k] == pom.mark else k !in blocks
    decreases n - i
  {
    assert Next(states[n - 1], states[n], actions[n - 1]);
    ReadOnce(states, actions, i);
    if n > i + 1 {
      RequestHasMark(states, actions, k, i, n - 1);
      StaysRead(states, actions, k, i, n - 1);
    }
  }

  /** While partitions are read, one that is still to be read is not in the request. */
  lemma {:induction false} ReadOnce(states: seq<State>, actions: seq<Action>, i: nat)
    requires Run(states, actions) && i < |states|
    ensures states[i].phase.Building? ==> states[i].phase.todo !! states[i].phase.blocks.Keys
  {
    if i > 0 {
      ReadOnce(states, actions, i - 1);
      assert Next(states[i - 1], states[i], actions[i - 1]);
    }
  }

  lemma {:induction false} StaysRead(states: seq<State>, actions: seq<Action>, k: Key, i: nat, n: nat)
    requires Run(states, actions) && i < n < |states| && actions[i] == ReadPartition(k)
    requires forall j :: i < j <= n ==> Requesting(states[j])
    ensures states[n].phase.Building? ==> k !in states[n].phase.todo
    decreases n - i
  {
    assert Next(states[n - 1], states[n], actions[n - 1]);
    if n > i + 1 {
      StaysRead(states, actions, k, i, n - 1);
    }
  }

  /** What the broker acknowledged last for a partition, told from the run alone. */
  ghost function LastAck(states: seq<State>, actions: seq<Action>, k: Key, n: nat): Option<Mark>
    requires |states| == |actions| + 1 && n < |states|
  {
    if n == 0 then None
    else
      var a, s := actions[n - 1], states[n - 1];
      if a.Manage? && a.key == k then Some(a.fetched)
      else if a == HandlePartition(k) && s.phase.Handling? && k in s.phase.blocks
              && k in s.phase.errors && s.phase.errors[k] == NoError then Some(s.phase.blocks[k])
      else LastAck(states, actions, k, n - 1)
  }

  lemma {:induction false} AckedIsLast(states: seq<State>, actions: seq<Action>, k: Key, n: nat)
    requires Run(states, actions) && n < |states|
    ensures match LastAck(states, actions, k, n)
            case None => k !in states[n].acked
            case Some(m) => k in states[n].acked && states[n].acked[k] == m
  {
    if n > 0 {
      AckedIsLast(states, actions, k, n - 1);
      assert Next(states[n - 1], states[n], actions[n - 1]);
    }
  }

  // ---------------------------------------------------------------- the manager when users are quiet

  type Errors = map<Key, CommitError>

  /** The broker's answer to a commit, or no answer at all. */
  predicate Acks(answer: Option<Errors>, k: Key) {
    answer.Some? && k in answer.value && answer.value[k].NoError?
  }

  function DirtyMarks(poms: map<Key, Pom>): map<Key, Mark> {
    map k | k in poms && poms[k].dirty :: poms[k].mark
  }

  function AfterAnswer(poms: map<Key, Pom>, blocks: map<Key, Mark>, answer: Option<Errors>): map<Key, Pom> {
    map k | k in poms :: if k in blocks && Acks(answer, k) then UpdateCommitted(poms[k], blocks[k]) else poms[k]
  }

  class Manager {
    const retryMax: nat
    var poms: map<Key, Pom>

    constructor (retryMax: nat)
      ensures this.retryMax == retryMax && poms == map[]
    {
      this.retryMax := retryMax;
      poms := map[];
    }

    method ConstructRequest() returns (blocks: map<Key, Mark>)
      ensures blocks == DirtyMarks(poms)
    {
      blocks := map[];
      var todo := poms.Keys;
      while todo != {}
        invariant todo <= poms.Keys
        invariant blocks == map k | k in poms && k !in todo && poms[k].dirty :: poms[k].mark
        decreases |todo|
      {
        var k :| k in todo;
        if poms[k].dirty {
          blocks := blocks[k := poms[k].mark];
        }
        todo := todo - {k};
      }
    }

    method HandleResponse(blocks: map<Key, Mark>, answer: Errors)
      modifies this
      ensures poms == AfterAnswer(old(poms), blocks, Some(answer))
    {
      var todo := poms.Keys;
      ghost var after := AfterAnswer(poms, blocks, Some(answer));
      while todo != {}
        invariant todo <= poms.Keys == old(poms).Keys
        invariant forall k :: k in poms ==> poms[k] == if k in todo then old(poms)[k] else after[k]
        decreases |todo|
      {
        var k :| k in todo;
        todo := todo - {k};
        if k in blocks && k in answer && answer[k].NoError? {
          poms := poms[k := UpdateCommitted(poms[k], blocks[k])];
        }
      }
    }

    method FlushToBroker(answer: Option<Errors>)
      modifies this
      ensures poms == AfterAnswer(old(poms), DirtyMarks(old(poms)), answer)
    {
      var blocks := ConstructRequest();
      if blocks == map[] || answer == None {
        assert forall k :: k in poms && k in blocks ==> !Acks(answer, k);
        return;
      }
      HandleResponse(blocks, answer.value);
    }

    method ReleasePoms(force: bool) returns (remaining: nat)
      modifies this
      ensures poms == Released(old(poms), force) && remaining == |poms|
    {
      var todo := poms.Keys;
      while todo != {}
        invariant todo <= poms.Keys <= old(poms).Keys
        invariant forall k :: k in poms ==> poms[k] == old(poms)[k]
        invariant forall k :: k in old(poms) && k !in todo ==> (k in poms <==> !Due(old(poms)[k], force))
        decreases |todo|
      {
        var k :| k in todo;
        if Due(poms[k], force) {
          poms := poms - {k};
        }
        todo := todo - {k};
      }
      remaining := |poms|;
    }

    method AsyncClosePoms()
      modifies this
      ensures poms == map k | k in old(poms) :: old(poms)[k].(done := true)
    {
      var todo := poms.Keys;
      while todo != {}
        invariant todo <= poms.Keys == old(poms).Keys
        invariant forall k :: k in poms ==> poms[k] == if k in todo then old(poms)[k] else old(poms)[k].(done := true)
        decreases |todo|
      {
        var k :| k in todo;
        poms := poms[k := poms[k].(done := true)];
        todo := todo - {k};
      }
    }

    /** Closing gives up exactly the dirty partitions that no attempt has had acknowledged. */
    method Close(answers: seq<Option<Errors>>) returns (lost: map<Key, Pom>)
      requires |answers| > retryMax
      modifies this
      ensures poms == map[]
      ensures lost.Keys == Unacknowledged(old(poms), answers, retryMax + 1).Keys
      ensures forall k :: k in lost ==> lost[k].mark == old(poms)[k].mark
    {
      hide AfterAnswer, Released;
      AsyncClosePoms();
      var attempt := 0;
      ghost var start := old(poms);
      while attempt <= retryMax
        invariant 0 <= attempt <= retryMax + 1
        invariant poms == Remaining(start, answers, attempt)
      {
        FlushToBroker(answers[attempt]);
        var remaining := ReleasePoms(false);
        FlushStep(start, answers, attempt);
        attempt := attempt + 1;
        if remaining == 0 {
          NoneRemain(start, answers, attempt, retryMax + 1);
          break;
        }
      }
      lost := poms;
      var _ := ReleasePoms(true);
      AllDue(lost);
    }
  }

  /** The dirty partitions that none of the first n attempts has had acknowledged. */
  function Unacknowledged(start: map<Key, Pom>, answers: seq<Option<Errors>>, n: nat): map<Key, Pom>
    requires n <= |answers|
  {
    map k | k in start && start[k].dirty && (forall i :: 0 <= i < n ==> !Acks(answers[i], k)) :: start[k].(done := true)
  }

  /** What is still managed after n attempts to flush and release. */
  function Remaining(start: map<Key, Pom>, answers: seq<Option<Errors>>, n: nat): map<Key, Pom>
    requires n <= |answers|
  {
    if n == 0 then map k | k in start :: start[k].(done := true) else Unacknowledged(start, answers, n)
  }

  lemma FlushStep(start: map<Key, Pom>, answers: seq<Option<Errors>>, n: nat)
    requires n < |answers|
    ensures var poms := Remaining(start, answers, n);
            Released(AfterAnswer(poms, DirtyMarks(poms), answers[n]), false) == Remaining(start, answers, n + 1)
  {
    var poms := Remaining(start, answers, n);
    var after := AfterAnswer(poms, DirtyMarks(poms), answers[n]);
    forall k
      ensures k in Released(after, false) <==> k in Unacknowledged(start, answers, n + 1)
    {
      assert k in start ==>
        ((forall i :: 0 <= i < n + 1 ==> !Acks(answers[i], k)) <==>
         (forall i :: 0 <= i < n ==> !Acks(answers[i], k)) && !Acks(answers[n], k));
    }
  }

  lemma NoneRemain(start: map<Key, Pom>, answers: seq<Option<Errors>>, n: nat, m: nat)
    requires 0 < n <= m <= |answers| && |Remaining(start, answers, n)| == 0
    ensures Remaining(start, answers, m) == map[] == Remaining(start, answers, n)
  {
    FewerRemain(start, answers, n, m);
    assert Remaining(start, answers, m).Keys <= Remaining(start, answers, n).Keys == {};
  }

  lemma FewerRemain(start: map<Key, Pom>, answers: seq<Option<Errors>>, n: nat, m: nat)
    requires 0 < n <= m <= |answers|
    ensures Remaining(start, answers, m).Keys <= Remaining(start, answers, n).Keys
  {}

  lemma AllDue(poms: map<Key, Pom>)
    requires forall k :: k in poms ==> poms[k].done
    ensures Released(poms, true) == map[]
  {}
}
