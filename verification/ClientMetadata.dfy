/**
  The Kafka client's view of the cluster: metadata with its cache of partition lists, the registered
  brokers, and the fail-over from one broker to the next when metadata is refreshed.
 */
module ClientMetadata {
  // ---------------------------------------------------------------- metadata

  datatype KError = NoError | UnknownTopicOrPartition | LeaderNotAvailable | InvalidTopic | TopicAuthorizationFailed |
                    Other(code: int)

  datatype Partition = Partition(id: int, leader: int, err: KError)

  datatype Topic = Topic(name: string, err: KError, partitions: seq<Partition>)

  type Partitions = map<int, Partition>

  /** A topic whose partitions are stored although it may have to be asked for again. */
  predicate Stored(t: Topic) {
    t.err.NoError? || t.err.LeaderNotAvailable?
  }

  function ById(ps: seq<Partition>): (m: Partitions)
    ensures forall i :: i in m ==> m[i].id == i
  {
    if ps == [] then map[] else ById(ps[..|ps| - 1])[ps[|ps| - 1].id := ps[|ps| - 1]]
  }

  function WithTopic(metadata: map<string, Partitions>, t: Topic): map<string, Partitions> {
    if Stored(t) then metadata[t.name := ById(t.partitions)] else metadata - {t.name}
  }

  function WithTopics(metadata: map<string, Partitions>, ts: seq<Topic>): map<string, Partitions> {
    if ts == [] then metadata else WithTopic(WithTopics(metadata, ts[..|ts| - 1]), ts[|ts| - 1])
  }

  /** The partitions are found by their numbers, and of two with one number the later one. */
  lemma {:induction false} ByIdHas(ps: seq<Partition>, i: nat)
    requires i < |ps| && forall j :: i < j < |ps| ==> ps[j].id != ps[i].id
    ensures ps[i].id in ById(ps) && ById(ps)[ps[i].id] == ps[i]
  {
    if i < |ps| - 1 {
      ByIdHas(ps[..|ps| - 1], i);
    }
  }

  /** And no others are. */
  lemma {:induction false} ByIdOnly(ps: seq<Partition>, id: int)
    requires id in ById(ps)
    ensures exists k :: 0 <= k < |ps| && ps[k].id == id
  {
    var front := ps[..|ps| - 1];
    if id == ps[|ps| - 1].id {
      assert ps[|ps| - 1].id == id;
    } else {
      ByIdOnly(front, id);
      var k :| 0 <= k < |front| && front[k].id == id;
      assert ps[k].id == id;
    }
  }

  /**
    The last word on a topic decides: without an error, or if only a leader is missing, its partitions are
    stored, and otherwise it is forgotten. A topic that is not mentioned stays as it was.
   */
  lemma {:induction false} LastWord(metadata: map<string, Partitions>, ts: seq<Topic>, i: nat)
    requires i < |ts| && forall j :: i < j < |ts| ==> ts[j].name != ts[i].name
    ensures var m := WithTopics(metadata, ts);
            if ts[i].err == NoError || ts[i].err == LeaderNotAvailable
            then ts[i].name in m && m[ts[i].name] == ById(ts[i].partitions)
            else ts[i].name !in m
  {
    if i < |ts| - 1 {
      var front := ts[..|ts| - 1];
      LastWord(metadata, front, i);
    }
  }

  lemma {:induction false} NotMentioned(metadata: map<string, Partitions>, ts: seq<Topic>, name: string)
    requires forall j :: 0 <= j < |ts| ==> ts[j].name != name
    ensures var m := WithTopics(metadata, ts);
            (name in m <==> name in metadata) && (name in m ==> m[name] == metadata[name])
  {
    if ts != [] {
      NotMentioned(metadata, ts[..|ts| - 1], name);
    }
  }

  predicate NeedsRetry(t: Topic) {
    || t.err.UnknownTopicOrPartition? || t.err.LeaderNotAvailable?
    || (t.err.NoError? && exists i :: 0 <= i < |t.partitions| && t.partitions[i].err.LeaderNotAvailable?)
  }

  // ---------------------------------------------------------------- the cache

  datatype Lists = Lists(all: seq<int>, writable: seq<int>)

  ghost predicate Rising(s: seq<int>) {
    forall i, j :: 0 <= i < j < |s| ==> s[i] < s[j]
  }

  /** The list is the sorted list of exactly these numbers. */
  ghost predicate SortedListOf(s: seq<int>, ids: set<int>) {
    Rising(s) && forall x :: x in s <==> x in ids
  }

  function Writable(ps: Partitions): set<int> {
    set i | i in ps && !ps[i].err.LeaderNotAvailable?
  }

  ghost predicate CacheOk(metadata: map<string, Partitions>, cache: map<string, Lists>) {
    && cache.Keys == metadata.Keys
    && (forall t :: t in metadata ==> forall i :: i in metadata[t] ==> metadata[t][i].id == i)
    && (forall t :: t in metadata ==> SortedListOf(cache[t].all, metadata[t].Keys))
    && (forall t :: t in metadata ==> SortedListOf(cache[t].writable, Writable(metadata[t])))
  }

  /** Sorted lists of the same numbers are the same list. */
  lemma {:induction false} OneList(s: seq<int>, t: seq<int>, ids: set<int>)
    requires SortedListOf(s, ids) && SortedListOf(t, ids)
    ensures s == t
    decreases |s|
  {
    if t != [] {
      assert t[0] in t;
      assert t[0] in ids;
      assert t[0] in s;
    }
    if s != [] {
      assert s[0] in s;
      assert s[0] in ids;
      assert s[0] in t;
      assert s[0] == t[0];
      var rest := ids - {s[0]};
      forall x
        ensures (x in s[1..] <==> x in rest) && (x in t[1..] <==> x in rest)
      {
        if x in s[1..] { assert x in s && x != s[0]; }
        if x in t[1..] { assert x in t && x != t[0]; }
        if x in rest { assert x in s && x in t; }
      }
      OneList(s[1..], t[1..], rest);
    }
  }

  function Insert(x: int, s: seq<int>): seq<int> {
    if s == [] || x < s[0] then [x] + s else [s[0]] + Insert(x, s[1..])
  }

  lemma {:induction false} InsertSorts(x: int, s: seq<int>)
    requires Rising(s) && x !in s
    ensures Rising(Insert(x, s)) && forall y :: y in Insert(x, s) <==> y == x || y in s
  {
    if s != [] && s[0] < x {
      InsertSorts(x, s[1..]);
      var rest := Insert(x, s[1..]);
      forall i | 0 <= i < |rest|
        ensures s[0] < rest[i]
      {
        assert rest[i] in rest;
        assert rest[i] == x || rest[i] in s[1..];
      }
      assert forall y :: y in s <==> y == s[0] || y in s[1..];
    }
  }

  lemma OnlyEmptyHasNone(s: set<int>)
    ensures (forall x :: x !in s) ==> s == {}
  {
    if forall x :: x !in s {
      assert s == {};
    }
  }

  /** A map is gone through in no particular order. */
  method AnyOf(s: set<int>) returns (x: int)
    requires s != {}
    ensures x in s
  {
    OnlyEmptyHasNone(s);
    x :| x in s;
  }

  /** The list of the partitions of a topic, sorted, with or without those that have no leader. */
  method PartitionList(ps: Partitions, writableOnly: bool) returns (ret: seq<int>)
    requires forall i :: i in ps ==> ps[i].id == i
    ensures SortedListOf(ret, if writableOnly then Writable(ps) else ps.Keys)
  {
    ret := [];
    var todo := ps.Keys;
    while todo != {}
      invariant todo <= ps.Keys && Rising(ret)
      invariant forall x :: x in ret <==> x in ps && x !in todo && (!writableOnly || x in Writable(ps))
      decreases |todo|
    {
      var i := AnyOf(todo);
      todo := todo - {i};
      if !(writableOnly && ps[i].err.LeaderNotAvailable?) {
        InsertSorts(ps[i].id, ret);
        ret := Insert(ps[i].id, ret);
      }
    }
  }

  // ---------------------------------------------------------------- the client

  /** A broker object, with its identity, its number and its address. */
  datatype Broker = Broker(ref: nat, id: int, addr: string)

  datatype Response = Response(brokers: seq<Broker>, controllerId: int, topics: seq<Topic>)

  /** The error to report: of the last topic that could not be stored. */
  function LastError(ts: seq<Topic>): KError {
    if ts == [] then NoError
    else if Stored(ts[|ts| - 1]) then LastError(ts[..|ts| - 1])
    else ts[|ts| - 1].err
  }

  /** An error that does not keep the partitions of a topic from being stored. */
  predicate Harmless(e: KError) {
    e == NoError || e == LeaderNotAvailable
  }

  /** No error is reported if and only if every topic is stored. */
  lemma {:induction false} ErrorReported(ts: seq<Topic>)
    ensures LastError(ts) == NoError <==> forall i :: 0 <= i < |ts| ==> Harmless(ts[i].err)
  {
    if ts != [] {
      var front, n := ts[..|ts| - 1], |ts| - 1;
      ErrorReported(front);
      if Harmless(ts[n].err) {
        assert forall i :: 0 <= i < n ==> front[i] == ts[i];
      }
    }
  }

  /** Otherwise it is the error of the last topic that is not. */
  lemma {:induction false} LastErrorReported(ts: seq<Topic>) returns (i: nat)
    requires LastError(ts) != NoError
    ensures i < |ts| && ts[i].err == LastError(ts) && forall j :: i < j < |ts| ==> Harmless(ts[j].err)
  {
    var n := |ts| - 1;
    if Harmless(ts[n].err) {
      i := LastErrorReported(ts[..n]);
      assert forall j :: i < j < n ==> Harmless(ts[..n][j].err);
    } else {
      i := n;
    }
  }

  function Names(ts: seq<Topic>): set<string> {
    set i | 0 <= i < |ts| :: ts[i].name
  }

  datatype Answer = Answered(response: Response) | NotSent | NotAuthorized | Failed

  datatype Outcome = Done(err: KError) | EncodingError | AuthenticationError | OutOfBrokers

  /** The first seed, or without seeds a registered broker. */
  predicate Known(seeds: seq<Broker>, brokers: map<int, Broker>, b: Broker) {
    if seeds != [] then b == seeds[0] else b.id in brokers
  }

  predicate AnyRetry(ts: seq<Topic>) {
    exists i :: 0 <= i < |ts| && NeedsRetry(ts[i])
  }

  // ---------------------------------------------------------------- turns

  /**
    One turn of asking brokers. They are counted down: those from `from` to above `to` were asked and
    have failed, and then there was none left, or no time, or the next one settled the turn.
   */
  datatype Turn = Turn(attempt: int, from: nat, to: nat)

  /** What brokers answer, and whether it is too late, by attempt and number of brokers left. */
  type Answers = (int, nat) -> Answer
  type Clock = (int, nat) -> bool

  /** The turn ends without an answer. */
  predicate Fruitless(t: Turn, late: Clock) {
    t.to == 0 || late(t.attempt, t.to)
  }

  /** The brokers from `from` down to above `to` were asked in time, and have failed. */
  predicate AllFailed(attempt: int, to: nat, from: nat, answer: Answers, late: Clock) {
    forall k :: to < k <= from ==> !late(attempt, k) && answer(attempt, k).Failed?
  }

  lemma NoneFailed(attempt: int, n: nat, answer: Answers, late: Clock)
    ensures AllFailed(attempt, n, n, answer, late)
  {}

  lemma OneMoreFailed(attempt: int, to: nat, from: nat, answer: Answers, late: Clock)
    requires AllFailed(attempt, to + 1, from, answer, late)
    requires !late(attempt, to + 1) && answer(attempt, to + 1).Failed?
    ensures AllFailed(attempt, to, from, answer, late)
  {}

  predicate TurnOk(t: Turn, answer: Answers, late: Clock) {
    && t.to <= t.from
    && AllFailed(t.attempt, t.to, t.from, answer, late)
    && (Fruitless(t, late) || !answer(t.attempt, t.to).Failed?)
  }

  /** What the turn comes to. */
  function OutcomeOf(t: Turn, answer: Answers, late: Clock): Outcome {
    if Fruitless(t, late) then OutOfBrokers
    else
      match answer(t.attempt, t.to)
      case Answered(response) => Done(LastError(response.topics))
      case NotSent => EncodingError
      case NotAuthorized => AuthenticationError
      case Failed => OutOfBrokers
  }

  /** The turn asks for another one. */
  predicate AsksAgain(t: Turn, answer: Answers, late: Clock) {
    || Fruitless(t, late)
    || (answer(t.attempt, t.to).Answered? && AnyRetry(answer(t.attempt, t.to).response.topics))
  }

  /** There is another turn: one is asked for, there are attempts left, and it is not too late. */
  predicate GoesOn(t: Turn, answer: Answers, late: Clock) {
    AsksAgain(t, answer, late) && t.attempt > 0 && !late(t.attempt, 0)
  }

  /** What is known of topics. */
  datatype Store = Store(metadata: map<string, Partitions>, topics: set<string>)

  function AfterResponse(s: Store, all: bool, response: Response): Store {
    Store(WithTopics(if all then map[] else s.metadata, response.topics),
          (if all then {} else s.topics) + Names(response.topics))
  }

  function AfterTurn(s: Store, all: bool, t: Turn, answer: Answers, late: Clock): Store {
    if !Fruitless(t, late) && answer(t.attempt, t.to).Answered?
    then AfterResponse(s, all, answer(t.attempt, t.to).response)
    else s
  }

  function AfterTurns(s: Store, all: bool, turns: seq<Turn>, answer: Answers, late: Clock): Store
    decreases |turns|
  {
    if turns == [] then s else AfterTurns(AfterTurn(s, all, turns[0], answer, late), all, turns[1..], answer, late)
  }

  /** A refresh is a sequence of turns, of which each but the last goes on. */
  predicate Refresh(turns: seq<Turn>, attempts: int, answer: Answers, late: Clock)
    decreases |turns|
  {
    && turns != [] && turns[0].attempt == attempts && TurnOk(turns[0], answer, late)
    && if GoesOn(turns[0], answer, late) then Refresh(turns[1..], attempts - 1, answer, late) else |turns| == 1
  }

  /** There is at most one turn more than there are attempts. */
  lemma {:induction false} TurnsBounded(turns: seq<Turn>, attempts: int, answer: Answers, late: Clock)
    requires Refresh(turns, attempts, answer, late)
    ensures |turns| <= 1 + if attempts > 0 then attempts else 0
    ensures !GoesOn(turns[|turns| - 1], answer, late)
    decreases |turns|
  {
    hide TurnOk, GoesOn;
    if GoesOn(turns[0], answer, late) {
      assert turns[0].attempt > 0 by {
        GoesOnPositive(turns[0], answer, late);
      }
      TurnsBounded(turns[1..], attempts - 1, answer, late);
    }
  }

  lemma GoesOnPositive(t: Turn, answer: Answers, late: Clock)
    requires GoesOn(t, answer, late)
    ensures t.attempt > 0
  {}

  /** A broker that is already registered at its address keeps its connection. */
  function WithBroker(brokers: map<int, Broker>, b: Broker): map<int, Broker> {
    if b.id in brokers && brokers[b.id].addr == b.addr then brokers else brokers[b.id := b]
  }

  function WithBrokers(brokers: map<int, Broker>, bs: seq<Broker>): map<int, Broker> {
    if bs == [] then brokers else WithBroker(WithBrokers(brokers, bs[..|bs| - 1]), bs[|bs| - 1])
  }

  /** The last address in a list is the one registered. */
  lemma {:induction false} LastAddress(brokers: map<int, Broker>, bs: seq<Broker>, i: nat)
    requires i < |bs| && forall j :: i < j < |bs| ==> bs[j].id != bs[i].id
    ensures var m := WithBrokers(brokers, bs);
            bs[i].id in m && m[bs[i].id].addr == bs[i].addr
  {
    if i < |bs| - 1 {
      LastAddress(brokers, bs[..|bs| - 1], i);
    }
  }

  /** A broker whose address is only confirmed, or that is not mentioned, stays the same object. */
  lemma {:induction false} Undisturbed(brokers: map<int, Broker>, bs: seq<Broker>, id: int)
    requires forall j :: 0 <= j < |bs| && bs[j].id == id ==> id in brokers && bs[j].addr == brokers[id].addr
    ensures var m := WithBrokers(brokers, bs);
            (id in m <==> id in brokers) && (id in m ==> m[id] == brokers[id])
  {
    if bs != [] {
      Undisturbed(brokers, bs[..|bs| - 1], id);
    }
  }

  lemma OneFewer(brokers: map<int, Broker>, id: int)
    ensures id in brokers ==> |brokers - {id}| == |brokers| - 1
  {
    if id in brokers {
      assert (brokers - {id}).Keys == brokers.Keys - {id};
      assert |brokers.Keys| == |brokers| && |(brokers - {id}).Keys| == |brokers - {id}|;
    }
  }

  /** The partitions of a topic by number, and whether one of them has no leader. */
  method Collect(partitions: seq<Partition>) returns (ps: Partitions, leaderless: bool)
    ensures ps == ById(partitions)
    ensures leaderless <==> exists i :: 0 <= i < |partitions| && partitions[i].err.LeaderNotAvailable?
  {
    ps, leaderless := map[], false;
    for i := 0 to |partitions|
      invariant ps == ById(partitions[..i])
      invariant leaderless <==> exists j :: 0 <= j < i && partitions[j].err.LeaderNotAvailable?
    {
      var p := partitions[i];
      assert partitions[..i + 1][..i] == partitions[..i];
      ps := ps[p.id := p];
      if p.err.LeaderNotAvailable? {
        leaderless := true;
      }
    }
    assert partitions[..|partitions|] == partitions;
  }

  lemma CacheWithout(metadata: map<string, Partitions>, cache: map<string, Lists>, name: string)
    requires CacheOk(metadata, cache)
    ensures CacheOk(metadata - {name}, cache - {name})
  {}

  lemma CacheWith(metadata: map<string, Partitions>, cache: map<string, Lists>, name: string, ps: Partitions,
                  lists: Lists)
    requires CacheOk(metadata, cache) && forall i :: i in ps ==> ps[i].id == i
    requires SortedListOf(lists.all, ps.Keys) && SortedListOf(lists.writable, Writable(ps))
    ensures CacheOk(metadata[name := ps], cache[name := lists])
  {
    hide SortedListOf;
  }

  class Client {
    var seedBrokers: seq<Broker>
    var deadSeeds: seq<Broker>
    var brokers: map<int, Broker>
    var metadata: map<string, Partitions>
    var metadataTopics: set<string>
    var cache: map<string, Lists>
    var controllerId: int

    ghost predicate Keyed()
      reads `brokers
    {
      forall i :: i in brokers ==> brokers[i].id == i
    }

    ghost predicate Cached()
      reads `metadata, `metadataTopics, `cache
    {
      CacheOk(metadata, cache) && metadata.Keys <= metadataTopics
    }

    /** The seeds, alive or dead. */
    ghost function AllSeeds(): multiset<Broker>
      reads `seedBrokers, `deadSeeds
    {
      multiset(seedBrokers + deadSeeds)
    }

    /** There is no broker to ask. */
    predicate Deserted()
      reads `seedBrokers, `brokers
    {
      seedBrokers == [] && brokers == map[]
    }

    /** All brokers have been forgotten, and all seeds are alive again. */
    predicate StartsAfresh()
      reads `deadSeeds, `brokers
    {
      deadSeeds == [] && brokers == map[]
    }

    constructor (seeds: seq<Broker>)
      ensures Keyed() && Cached() && seedBrokers == seeds && deadSeeds == []
    {
      seedBrokers, deadSeeds := seeds, [];
      brokers := map[];
      metadata, metadataTopics, cache := map[], {}, map[];
      controllerId := 0;
    }

    // -------------------------------------------------------------- brokers

    method RegisterBroker(b: Broker)
      requires Keyed()
      modifies `brokers
      ensures Keyed() && brokers == WithBroker(old(brokers), b)
    {
      if b.id !in brokers || b.addr != brokers[b.id].addr {
        brokers := brokers[b.id := b];
      }
    }

    /** The first seed goes to the dead ones; any other broker is forgotten. */
    method DeregisterBroker(b: Broker)
      requires Keyed()
      modifies `seedBrokers, `deadSeeds, `brokers
      ensures Keyed() && AllSeeds() == old(AllSeeds())
      ensures if old(seedBrokers) != [] && b == old(seedBrokers)[0]
              then seedBrokers == old(seedBrokers)[1..] && brokers == old(brokers)
              else seedBrokers == old(seedBrokers) && brokers == old(brokers) - {b.id}
      ensures Known(old(seedBrokers), old(brokers), b) ==>
              |seedBrokers| + |brokers| == old(|seedBrokers| + |brokers|) - 1
    {
      if |seedBrokers| > 0 && b == seedBrokers[0] {
        assert seedBrokers == [seedBrokers[0]] + seedBrokers[1..];
        deadSeeds := deadSeeds + [b];
        seedBrokers := seedBrokers[1..];
      } else {
        OneFewer(brokers, b.id);
        brokers := brokers - {b.id};
      }
    }

    method ResurrectDeadBrokers()
      modifies `seedBrokers, `deadSeeds
      ensures seedBrokers == old(seedBrokers + deadSeeds) && deadSeeds == []
      ensures old(Deserted()) ==> StartsAfresh()
      ensures AllSeeds() == old(AllSeeds())
    {
      seedBrokers := seedBrokers + deadSeeds;
      deadSeeds := [];
      assert seedBrokers + deadSeeds == seedBrokers;
    }

    /** A seed if there is one, or else some registered broker. */
    method Any() returns (found: bool, b: Broker)
      ensures found <==> !Deserted()
      ensures found && Keyed() ==> Known(seedBrokers, brokers, b)
    {
      if |seedBrokers| > 0 { return true, seedBrokers[0]; }
      if brokers == map[] { return false, Broker(0, -1, ""); }
      assert brokers.Keys != {};
      var i := AnyOf(brokers.Keys);
      return true, brokers[i];
    }

    // -------------------------------------------------------------- metadata

    method StoreTopic(t: Topic) returns (retry: bool)
      requires Cached()
      modifies `metadata, `metadataTopics, `cache
      ensures Cached()
      ensures metadata == WithTopic(old(metadata), t) && metadataTopics == old(metadataTopics) + {t.name}
      ensures retry == NeedsRetry(t)
    {
      hide CacheOk, SortedListOf, ById;
      metadataTopics := metadataTopics + {t.name};
      CacheWithout(metadata, cache, t.name);
      metadata := metadata - {t.name};
      cache := cache - {t.name};
      retry := t.err.UnknownTopicOrPartition? || t.err.LeaderNotAvailable?;
      if !Stored(t) { return; }
      var ps, leaderless := Collect(t.partitions);
      retry := retry || leaderless;
      SetPartitions(t.name, ps);
    }

    /** Stores the partitions of a topic and both lists of them. */
    method SetPartitions(name: string, ps: Partitions)
      requires CacheOk(metadata, cache) && forall i :: i in ps ==> ps[i].id == i
      modifies `metadata, `cache
      ensures CacheOk(metadata, cache) && metadata == old(metadata)[name := ps]
    {
      hide CacheOk, SortedListOf;
      var all := PartitionList(ps, false);
      var writable := PartitionList(ps, true);
      CacheWith(metadata, cache, name, ps, Lists(all, writable));
      metadata := metadata[name := ps];
      cache := cache[name := Lists(all, writable)];
    }

    method RegisterBrokers(bs: seq<Broker>)
      requires Keyed()
      modifies `brokers
      ensures Keyed() && brokers == WithBrokers(old(brokers), bs)
    {
      for i := 0 to |bs|
        invariant Keyed() && brokers == WithBrokers(old(brokers), bs[..i])
      {
        assert bs[..i + 1][..i] == bs[..i];
        RegisterBroker(bs[i]);
      }
      assert bs[..|bs|] == bs;
    }

    method StoreTopics(ts: seq<Topic>) returns (retry: bool, err: KError)
      requires Cached()
      modifies `metadata, `metadataTopics, `cache
      ensures Cached()
      ensures metadata == WithTopics(old(metadata), ts) && metadataTopics == old(metadataTopics) + Names(ts)
      ensures retry <==> exists i :: 0 <= i < |ts| && NeedsRetry(ts[i])
      ensures err == LastError(ts)
    {
      hide CacheOk, NeedsRetry, WithTopic, Names;
      retry, err := false, NoError;
      NoNames();
      for i := 0 to |ts|
        invariant Cached()
        invariant metadata == WithTopics(old(metadata), ts[..i])
        invariant metadataTopics == old(metadataTopics) + Names(ts[..i])
        invariant retry <==> exists j :: 0 <= j < i && NeedsRetry(ts[j])
        invariant err == LastError(ts[..i])
      {
        var t := ts[i];
        assert ts[..i + 1][..i] == ts[..i];
        NamesNext(ts, i);
        var again := StoreTopic(t);
        retry := retry || again;
        if !Stored(t) {
          err := t.err;
        }
      }
      assert ts[..|ts|] == ts;
    }

    method UpdateMetadata(data: Response, allKnownMetadata: bool) returns (retry: bool, err: KError)
      requires Keyed() && Cached()
      modifies `brokers, `metadata, `metadataTopics, `cache, `controllerId
      ensures Keyed() && Cached()
      ensures brokers == WithBrokers(old(brokers), data.brokers) && controllerId == data.controllerId
      ensures metadata == WithTopics(if allKnownMetadata then map[] else old(metadata), data.topics)
      ensures metadataTopics == (if allKnownMetadata then {} else old(metadataTopics)) + Names(data.topics)
      ensures (retry <==> AnyRetry(data.topics)) && err == LastError(data.topics)
    {
      hide CacheOk, NeedsRetry, WithTopics, Names, LastError, WithBrokers;
      RegisterBrokers(data.brokers);
      controllerId := data.controllerId;
      if allKnownMetadata {
        metadata, metadataTopics, cache := map[], {}, map[];
        EmptyCache();
      }
      retry, err := StoreTopics(data.topics);
    }

    // -------------------------------------------------------------- refreshing

    ghost function Topics(): Store
      reads `metadata, `metadataTopics
    {
      Store(metadata, metadataTopics)
    }

    /** The number of brokers that can be asked. */
    function Candidates(): nat
      reads `seedBrokers, `brokers
    {
      |seedBrokers| + |brokers|
    }

    /** A broker has answered, or has refused in a way that no other broker would mend. */
    method UseAnswer(allKnownMetadata: bool, a: Answer) returns (again: bool, r: Outcome)
      requires Keyed() && Cached() && !a.Failed?
      modifies `brokers, `metadata, `metadataTopics, `cache, `controllerId
      ensures Keyed() && Cached()
      ensures match a
              case Answered(response) =>
                && r == Done(LastError(response.topics)) && (again <==> AnyRetry(response.topics))
                && Topics() == AfterResponse(old(Topics()), allKnownMetadata, response)
                && brokers == WithBrokers(old(brokers), response.brokers)
              case NotSent => !again && r == EncodingError && Topics() == old(Topics())
              case NotAuthorized => !again && r == AuthenticationError && Topics() == old(Topics())
    {
      hide CacheOk, WithTopics, LastError, AnyRetry, WithBrokers, Names;
      match a {
        case Answered(response) =>
          var retry, err := UpdateMetadata(response, allKnownMetadata);
          return retry, Done(err);
        case NotSent => return false, EncodingError;
        case NotAuthorized => return false, AuthenticationError;
      }
    }

    /**
      Brokers are asked in turn until one answers; a broker that fails is dropped, so that the turn ends.
      Broker answers and the clock are any functions of the progress.
     */
    method AskInTurn(allKnownMetadata: bool, attempt: int, answer: Answers, late: Clock)
      returns (again: bool, r: Outcome, ghost turn: Turn)
      requires Keyed() && Cached()
      modifies this
      ensures Keyed() && Cached() && AllSeeds() == old(AllSeeds())
      ensures turn.attempt == attempt && turn.from == old(Candidates()) && TurnOk(turn, answer, late)
      ensures r == OutcomeOf(turn, answer, late) && (again <==> AsksAgain(turn, answer, late))
      ensures Topics() == AfterTurn(old(Topics()), allKnownMetadata, turn, answer, late)
      ensures turn.to == 0 ==> StartsAfresh()
    {
      hide CacheOk, Known, Client.AllSeeds, Client.StartsAfresh, Client.Keyed, AfterResponse, LastError, AnyRetry,
        WithBrokers, Client.Deserted, Client.Cached, AllFailed;
      var found, b := Any();
      NoneFailed(attempt, Candidates(), answer, late);
      DesertedIsNone();
      while found && !late(attempt, Candidates())
        invariant Keyed() && Cached() && AllSeeds() == old(AllSeeds()) && Topics() == old(Topics())
        invariant found <==> !Deserted()
        invariant found ==> Known(seedBrokers, brokers, b)
        invariant Candidates() <= old(Candidates()) && (Candidates() == 0 <==> Deserted())
        invariant AllFailed(attempt, Candidates(), old(Candidates()), answer, late)
        decreases Candidates()
      {
        turn := Turn(attempt, old(Candidates()), Candidates());
        var a := answer(attempt, Candidates());
        if !a.Failed? {
          again, r := UseAnswer(allKnownMetadata, a);
          return;
        }
        DeregisterBroker(b);
        OneMoreFailed(attempt, Candidates(), old(Candidates()), answer, late);
        DesertedIsNone();
        found, b := Any();
      }
      turn := Turn(attempt, old(Candidates()), Candidates());
      if !found {
        ResurrectDeadBrokers();
      }
      return true, OutOfBrokers, turn;
    }

    lemma DesertedIsNone()
      ensures Candidates() == 0 <==> Deserted()
    {}

    /**
      There are finitely many turns, and seeds are moved about and never lost. What is known of topics is
      what was known before, with the answers that were used in the turns, in order.
     */
    method TryRefreshMetadata(allKnownMetadata: bool, attemptsRemaining: int, answer: Answers, late: Clock)
      returns (r: Outcome, ghost turns: seq<Turn>)
      requires Keyed() && Cached()
      modifies this
      ensures Keyed() && Cached() && AllSeeds() == old(AllSeeds())
      ensures Refresh(turns, attemptsRemaining, answer, late) && turns[0].from == old(Candidates())
      ensures r == OutcomeOf(turns[|turns| - 1], answer, late)
      ensures Topics() == AfterTurns(old(Topics()), allKnownMetadata, turns, answer, late)
      ensures turns[|turns| - 1].to == 0 ==> StartsAfresh()
      decreases if attemptsRemaining > 0 then attemptsRemaining else 0
    {
      hide CacheOk, TurnOk, OutcomeOf, AsksAgain, AfterTurn, Client.AllSeeds, Client.StartsAfresh, Client.Keyed;
      var again, error;
      ghost var turn;
      again, error, turn := AskInTurn(allKnownMetadata, attemptsRemaining, answer, late);
      if again && attemptsRemaining > 0 && !late(attemptsRemaining, 0) {
        ghost var later;
        r, later := TryRefreshMetadata(allKnownMetadata, attemptsRemaining - 1, answer, late);
        turns := [turn] + later;
        assert turns[1..] == later;
      } else {
        r, turns := error, [turn];
        assert turns[1..] == [];
      }
    }
  }

  lemma EmptyCache()
    ensures CacheOk(map[], map[])
  {}

  lemma NamesNext(ts: seq<Topic>, i: nat)
    requires i < |ts|
    ensures Names(ts[..i + 1]) == Names(ts[..i]) + {ts[i].name}
  {
    assert ts[..i + 1][i] == ts[i];
    assert forall j :: 0 <= j < i ==> ts[..i + 1][j] == ts[..i][j];
  }

  lemma NoNames()
    ensures Names([]) == {}
  {}
}
