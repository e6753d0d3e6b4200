/**
  The invariant of the retry protocol, and why the steps of the broker producers keep it.
 */
module ProducerInvariant {
  import opened Wrappers
  import opened ProducerProtocol
  import opened ProducerPath
  import opened ProducerShape

  // ---------------------------------------------------------------- views of a state

  function Back(s: State): seq<Message> {
    s.handlerQueue + s.retryQueue
  }

  function CurrentView(s: State): seq<Message> {
    if s.current.Some? && s.current.value < |s.brokers| then View(s.brokers[s.current.value]) else []
  }

  predicate CurrentReady(s: State) {
    s.current.Some? && s.current.value < |s.brokers| && s.brokers[s.current.value].NeedsRetry()
  }

  /** The parts of the path: buffers by level, handler queue, retry queue, broker producers. */
  function Layout(s: State): (p: Parts)
    ensures |p| == |s.retryState| + 2 + |s.brokers|
    ensures forall i | 0 <= i < |s.retryState| :: p[i] == s.retryState[i].buf
    ensures p[|s.retryState|] == s.handlerQueue && p[|s.retryState| + 1] == s.retryQueue
    ensures forall i | |s.retryState| + 2 <= i < |p| :: p[i] == View(s.brokers[i - |s.retryState| - 2])
  {
    seq(|s.retryState|, i requires 0 <= i < |s.retryState| => s.retryState[i].buf)
    + [s.handlerQueue, s.retryQueue]
    + seq(|s.brokers|, i requires 0 <= i < |s.brokers| => View(s.brokers[i]))
  }

  function BrokerPart(s: State, b: nat): nat {
    |s.retryState| + 2 + b
  }

  /** How many messages of this partition the wait group counts. */
  function Live(s: State): int {
    s.waitGroup - if s.phase.ShutdownSent? then 1 else 0
  }

  // ---------------------------------------------------------------- the invariant

  ghost predicate Structure(s: State) {
    && 1 <= s.max && |s.retryState| == s.max + 1 && !s.crashed
    && LevelsOk(s.retryState, s.highWatermark)
    && BackOk(s.retryState, s.highWatermark, Back(s))
    && (forall m | m in s.retryQueue :: Level(m) >= 1)
    && BrokersOk(s.retryState, s.highWatermark, s.current, s.brokers)
    && Lane(s.highWatermark, Back(s), CurrentView(s), CurrentReady(s))
  }

  ghost predicate Books(s: State) {
    Ledger(Layout(s), s.retryState, s.nextId, s.successes, s.errors, Live(s))
  }

  ghost predicate Core(s: State) {
    Structure(s) && Books(s)
  }

  /** What holds between two messages of the partition producer: a retry level is open, or nothing is retried. */
  ghost predicate Settled(s: State) {
    && Core(s)
    && (s.highWatermark > 0 ==> s.retryState[s.highWatermark].expectChaser)
    && s.retryState[s.highWatermark].buf == []
  }

  // ---------------------------------------------------------------- reading the invariant

  lemma BrokerIsOk(s: State, b: nat)
    requires Structure(s) && b < |s.brokers|
    ensures BrokerOk(s.retryState, s.highWatermark, s.current == Some(b), s.brokers[b])
  {
    hide BackOk, Lane, LevelsOk, BrokerOk;
  }

  lemma CoreBroker(s: State, b: nat)
    requires Core(s) && b < |s.brokers|
    ensures BrokerOk(s.retryState, s.highWatermark, s.current == Some(b), s.brokers[b])
  {
    hide Structure, Books, BrokerOk;
    BrokerIsOk(s, b);
  }

  lemma LevelsAreOk(s: State)
    requires Structure(s)
    ensures LevelsOk(s.retryState, s.highWatermark) && |s.retryState| == s.max + 1
  {
    hide BackOk, Lane, LevelsOk, BrokersOk;
  }

  lemma BrokerHeld(s: State, b: nat, x: Message)
    requires Structure(s) && b < |s.brokers| && x in View(s.brokers[b]) && x.Data?
    ensures 1 <= x.retries
    ensures if Above(s.highWatermark, x) then s.current == Some(b)
            else var k := Cover(s.retryState, x.retries);
                 1 <= k < |s.retryState| && Fin(k) in View(s.brokers[b]) && s.brokers[b].NeedsRetry()
  {
    hide BackOk, Lane, LevelsOk, ViewOk;
    assert BrokerOk(s.retryState, s.highWatermark, s.current == Some(b), s.brokers[b]);
    Held(s.retryState, s.highWatermark, s.current == Some(b), s.brokers[b].NeedsRetry(), View(s.brokers[b]), x);
  }

  lemma LayoutBroker(s: State, t: State, b: nat)
    requires b < |s.brokers| == |t.brokers| && t.brokers == s.brokers[b := t.brokers[b]]
    requires t.retryState == s.retryState && t.handlerQueue == s.handlerQueue && t.retryQueue == s.retryQueue
    ensures Layout(t) == Layout(s)[BrokerPart(s, b) := View(t.brokers[b])]
  {}

  lemma OneFinInBroker(s: State, b: nat, k: nat)
    requires Core(s) && b < |s.brokers| && 1 <= k < |s.retryState| && Fin(k) in View(s.brokers[b])
    ensures Fin(k) !in Back(s)
    ensures forall a | 0 <= a < |s.brokers| && a != b :: Fin(k) !in View(s.brokers[a])
  {
    hide Structure, Account, Chased;
    var p, levels, n := Layout(s), s.retryState, |s.retryState|;
    assert p[BrokerPart(s, b)] == View(s.brokers[b]);
    OneFin(p, levels, n, BrokerPart(s, b), k);
    OneFin(p, levels, n + 1, BrokerPart(s, b), k);
    forall a | 0 <= a < |s.brokers| && a != b ensures Fin(k) !in View(s.brokers[a]) {
      assert p[BrokerPart(s, a)] == View(s.brokers[a]);
      if a < b {
        OneFin(p, levels, BrokerPart(s, a), BrokerPart(s, b), k);
      } else {
        OneFin(p, levels, BrokerPart(s, b), BrokerPart(s, a), k);
      }
    }
  }

  /** Two broker producers never hold messages that would come back at the same level. */
  lemma LevelsApart(s: State, a: nat, b: nat, x: Message, y: Message)
    requires Core(s) && a < |s.brokers| && b < |s.brokers| && a != b
    requires x in View(s.brokers[a]) && y in View(s.brokers[b]) && x.Data? && y.Data?
    ensures x.retries != y.retries
  {
    hide Structure, Books;
    BrokerHeld(s, a, x);
    BrokerHeld(s, b, y);
    if !Above(s.highWatermark, x) {
      OneFinInBroker(s, a, Cover(s.retryState, x.retries));
    }
  }

  // ---------------------------------------------------------------- steps inside a broker producer

  /** t is s with broker producer b replaced. */
  ghost predicate Replaced(s: State, t: State, b: nat) {
    && b < |s.brokers| == |t.brokers|
    && t.brokers == s.brokers[b := t.brokers[b]]
    && OnlyData(t.brokers[b].inFlight) && OnlyData(t.brokers[b].buffer)
    && t.max == s.max && t.retryState == s.retryState && t.highWatermark == s.highWatermark && t.current == s.current
    && t.crashed == s.crashed && t.handlerQueue == s.handlerQueue
  }

  lemma ReplacedStructure(s: State, t: State, b: nat)
    requires Structure(s) && Replaced(s, t, b)
    requires BackOk(s.retryState, s.highWatermark, Back(t)) && forall m | m in t.retryQueue :: Level(m) >= 1
    requires ViewOk(s.retryState, s.highWatermark, s.current == Some(b), t.brokers[b].NeedsRetry(), View(t.brokers[b]))
    requires if s.current == Some(b) then Lane(s.highWatermark, Back(t), View(t.brokers[b]), t.brokers[b].NeedsRetry())
             else Lane(s.highWatermark, Back(t), CurrentView(s), CurrentReady(s))
    ensures Structure(t)
  {
    hide BackOk, Lane, LevelsOk, ViewOk, BrokersOk;
    BrokersUpdate(s.retryState, s.highWatermark, s.current, s.brokers, b, t.brokers[b]);
  }

  /** Regrouping what a broker producer holds, and losing its connection, change no view. */
  lemma Regroup(s: State, t: State, b: nat)
    requires Core(s) && Replaced(s, t, b) && t == s.(brokers := t.brokers)
    requires View(t.brokers[b]) == View(s.brokers[b])
    requires s.brokers[b].NeedsRetry() ==> t.brokers[b].NeedsRetry()
    ensures Core(t)
  {
    hide Structure, Ledger;
    var p, i := Layout(s), BrokerPart(s, b);
    LayoutBroker(s, t, b);
    assert p[i] == View(s.brokers[b]);
    assert p[i := p[i]] == p;
    RegroupStructure(s, t, b);
  }

  lemma RegroupStructure(s: State, t: State, b: nat)
    requires Structure(s) && Replaced(s, t, b) && t == s.(brokers := t.brokers)
    requires View(t.brokers[b]) == View(s.brokers[b])
    requires s.brokers[b].NeedsRetry() ==> t.brokers[b].NeedsRetry()
    ensures Structure(t)
  {
    hide BackOk, Lane, LevelsOk, ViewOk;
    var v, h := View(s.brokers[b]), s.highWatermark;
    assert Back(t) == Back(s);
    assert BrokerOk(s.retryState, h, s.current == Some(b), s.brokers[b]);
    ViewRetry(s.retryState, h, s.current == Some(b), s.brokers[b].NeedsRetry(), t.brokers[b].NeedsRetry(), v);
    if s.current == Some(b) {
      LaneRetry(h, Back(s), v, s.brokers[b].NeedsRetry(), t.brokers[b].NeedsRetry());
    }
    ReplacedStructure(s, t, b);
  }

  /** t is s after a stretch of user messages left broker producer b. */
  ghost predicate CutFromBroker(s: State, t: State, b: nat, from: nat, to: nat) {
    && Replaced(s, t, b)
    && t == s.(brokers := t.brokers, successes := t.successes, errors := t.errors, waitGroup := t.waitGroup)
    && from <= to <= |View(s.brokers[b])|
    && View(t.brokers[b]) == Cut(View(s.brokers[b]), from, to)
    && t.brokers[b].NeedsRetry() == s.brokers[b].NeedsRetry()
    && OnlyData(View(s.brokers[b])[from..to])
  }

  lemma CutStructure(s: State, t: State, b: nat, from: nat, to: nat)
    requires Structure(s) && CutFromBroker(s, t, b, from, to)
    ensures Structure(t)
  {
    hide BackOk, Lane, LevelsOk, ViewOk;
    var v := View(s.brokers[b]);
    assert BrokerOk(s.retryState, s.highWatermark, s.current == Some(b), s.brokers[b]);
    ViewCut(s.retryState, s.highWatermark, s.current == Some(b), s.brokers[b].NeedsRetry(), v, from, to);
    assert Back(t) == Back(s);
    if s.current == Some(b) {
      LaneCut(s.highWatermark, Back(s), v, s.brokers[b].NeedsRetry(), from, to);
    }
    ReplacedStructure(s, t, b);
  }

  /** User messages that leave a broker producer as errors. */
  lemma FailFromBroker(s: State, t: State, b: nat, from: nat, batch: seq<Message>)
    requires Core(s) && CutFromBroker(s, t, b, from, from + |batch|)
    requires t.successes == s.successes && t.errors == s.errors + batch && t.waitGroup == s.waitGroup - |batch|
    requires OnlyData(batch) && forall k | 0 <= k < |batch| :: View(s.brokers[b])[from + k] == Raised(batch[k])
    ensures Core(t)
  {
    hide Structure, Ledger;
    LayoutBroker(s, t, b);
    var p, i := Layout(s), BrokerPart(s, b);
    assert p[i] == View(s.brokers[b]);
    LedgerFail(p, Layout(t), s.retryState, s.retryState, s.nextId, s.successes, s.errors, Live(s), i, from, batch);
    CutStructure(s, t, b, from, from + |batch|);
  }

  // ---------------------------------------------------------------- messages that come back

  /** The oldest message of broker producer b goes to the retry queue, one level up. */
  ghost predicate Bounces(s: State, t: State, b: nat) {
    && Replaced(s, t, b)
    && View(s.brokers[b]) != []
    && t == s.(brokers := t.brokers, retryQueue := s.retryQueue + [View(s.brokers[b])[0]])
    && View(t.brokers[b]) == View(s.brokers[b])[1..]
    && s.brokers[b].NeedsRetry()
    && !View(s.brokers[b])[0].Syn?
    && Level(View(s.brokers[b])[0]) <= s.max
    && (View(s.brokers[b])[0].Data? ==> t.brokers[b].NeedsRetry())
  }

  lemma BounceBack(s: State, b: nat, x: Message)
    requires Core(s) && b < |s.brokers| && x in View(s.brokers[b]) && !x.Syn? && Level(x) <= s.max
    ensures BackOk(s.retryState, s.highWatermark, Back(s) + [x]) && Level(x) >= 1
  {
    hide Lane, Books, BackOk;
    var levels, h := s.retryState, s.highWatermark;
    if x.Data? {
      BrokerHeld(s, b, x);
      if Above(h, x) {
        CoverIs(levels, x.retries, |levels|);
        NoFinBeyond(levels, h, Back(s));
      } else {
        OneFinInBroker(s, b, Cover(levels, x.retries));
      }
    } else {
      assert BrokerOk(levels, h, s.current == Some(b), s.brokers[b]);
      assert ViewMessage(levels, h, s.current == Some(b), s.brokers[b].NeedsRetry(), View(s.brokers[b]), x);
    }
    BackAppend(levels, h, Back(s), x);
  }

  lemma NoFinBeyond(levels: seq<RetryLevel>, hwm: nat, q: seq<Message>)
    requires BackOk(levels, hwm, q)
    ensures Fin(|levels|) !in q
  {
    assert !BackMessage(levels, hwm, Fin(|levels|));
  }

  lemma BounceStructure(s: State, t: State, b: nat)
    requires Core(s) && Bounces(s, t, b)
    ensures Structure(t)
  {
    hide BackOk, Lane, LevelsOk, ViewOk, Books;
    var v, h := View(s.brokers[b]), s.highWatermark;
    var x := v[0];
    assert x in v;
    assert Back(t) == Back(s) + [x];
    BounceBack(s, b, x);
    assert BrokerOk(s.retryState, h, s.current == Some(b), s.brokers[b]);
    ViewTail(s.retryState, h, s.current == Some(b), true, t.brokers[b].NeedsRetry(), v);
    if s.current == Some(b) {
      LaneBounce(s.retryState, h, Back(s), v, t.brokers[b].NeedsRetry());
    } else {
      if x.Data? {
        BrokerHeld(s, b, x);
      }
      LaneInsert(h, Back(s), CurrentView(s), CurrentReady(s), |Back(s)|, x);
      assert Back(s)[..|Back(s)|] + [x] + Back(s)[|Back(s)|..] == Back(t);
    }
    ReplacedStructure(s, t, b);
  }

  lemma BounceOrder(s: State, b: nat)
    requires Core(s) && b < |s.brokers| && View(s.brokers[b]) != []
    ensures var p, i, j := Layout(s), BrokerPart(s, b), |s.retryState| + 1;
            Ordered(p[i := p[i][1..]][j := p[j] + [p[i][0]]])
  {
    hide Structure, OncePerId, Older, Increasing, Chased;
    var p, i, j := Layout(s), BrokerPart(s, b), |s.retryState| + 1;
    assert p[i] == View(s.brokers[b]);
    var x := p[i][0];
    forall k, y: Message | j < k < i && y in p[k] && y.Data? && x.Data? ensures y.retries != x.retries {
      LevelsApart(s, k - j - 1, b, y, x);
    }
    hide Ordered;
    MoveLeft(p, i, j);
  }

  lemma Bounce(s: State, t: State, b: nat)
    requires Core(s) && Bounces(s, t, b)
    ensures Core(t)
  {
    hide Structure, Ledger;
    var p, i, j := Layout(s), BrokerPart(s, b), |s.retryState| + 1;
    assert p[i] == View(s.brokers[b]);
    assert Layout(t) == p[i := p[i][1..]][j := p[j] + [p[i][0]]];
    BounceOrder(s, b);
    LedgerMove(p, Layout(t), s.retryState, s.retryState, s.nextId, s.successes, s.errors, Live(s), i, j, p[i][0]);
    BounceStructure(s, t, b);
  }

  /** The syn that opens a session is handled: whatever kept the partition in retry is forgotten. */
  ghost predicate Opens(s: State, t: State, b: nat) {
    && Replaced(s, t, b) && View(s.brokers[b]) != [] && View(s.brokers[b])[0] == Syn
    && t == s.(brokers := t.brokers, waitGroup := s.waitGroup - 1)
    && View(t.brokers[b]) == View(s.brokers[b])[1..]
  }

  lemma OpenStructure(s: State, t: State, b: nat)
    requires Structure(s) && Opens(s, t, b)
    ensures Structure(t)
  {
    hide BackOk, Lane, LevelsOk;
    var v, h := View(s.brokers[b]), s.highWatermark;
    assert BrokerOk(s.retryState, h, s.current == Some(b), s.brokers[b]);
    assert Syn in v;
    assert ViewMessage(s.retryState, h, s.current == Some(b), s.brokers[b].NeedsRetry(), v, Syn);
    hide ViewOk;
    ViewTail(s.retryState, h, s.current == Some(b), s.brokers[b].NeedsRetry(), t.brokers[b].NeedsRetry(), v);
    LaneOpen(h, Back(s), v, s.brokers[b].NeedsRetry(), t.brokers[b].NeedsRetry());
    assert Back(t) == Back(s);
    ReplacedStructure(s, t, b);
  }

  lemma Open(s: State, t: State, b: nat)
    requires Core(s) && Opens(s, t, b)
    ensures Core(t)
  {
    hide Structure, Ledger;
    var p, i := Layout(s), BrokerPart(s, b);
    LayoutBroker(s, t, b);
    assert p[i] == View(s.brokers[b]);
    LedgerDrop(p, Layout(t), s.retryState, s.retryState, s.nextId, s.successes, s.errors, Live(s), i);
    OpenStructure(s, t, b);
  }

  // ---------------------------------------------------------------- acknowledgement

  /** The session of a broker producer that is not retrying is in order. */
  lemma SessionOrder(s: State, b: nat, k: nat, l: nat)
    requires Core(s) && b < |s.brokers| && !s.brokers[b].NeedsRetry()
    requires k < l < |View(s.brokers[b])| && View(s.brokers[b])[k].Data? && View(s.brokers[b])[l].Data?
    ensures View(s.brokers[b])[k].id < View(s.brokers[b])[l].id
  {
    hide BackOk, LevelsOk, BrokersOk, OncePerId, Older, Increasing, Chased;
    var v, p, i, n := View(s.brokers[b]), Layout(s), BrokerPart(s, b), |Back(s)|;
    assert p[i] == v;
    assert Before(p[i][k], p[i][l]);
    BrokerHeld(s, b, v[k]);
    BrokerHeld(s, b, v[l]);
    var u := Back(s) + CurrentView(s);
    assert u[n + k] == v[k] && u[n + l] == v[l];
    assert Falls(s.highWatermark, u[n + k], u[n + l]);
  }

  /** While the broker producer in use is not retrying, everything elsewhere is at or below the watermark. */
  lemma BackBelow(s: State, b: nat, y: Message)
    requires Structure(s) && b < |s.brokers| && !s.brokers[b].NeedsRetry() && s.current == Some(b)
    requires y in Back(s) && y.Data?
    ensures y.retries <= s.highWatermark
  {
    hide BackOk, BrokersOk, LevelsOk;
  }

  lemma BufferBelow(levels: seq<RetryLevel>, hwm: nat, k: nat, y: Message)
    requires LevelsOk(levels, hwm) && k < |levels| && y in levels[k].buf
    ensures y.Data? && y.retries <= hwm
  {
    assert BufferOk(levels[k].buf, hwm, k);
  }

  lemma BelowWatermark(s: State, b: nat, k: nat, y: Message)
    requires Structure(s) && b < |s.brokers| && !s.brokers[b].NeedsRetry() && s.current == Some(b)
    requires k < |Layout(s)| && k != BrokerPart(s, b) && y in Layout(s)[k] && y.Data?
    ensures y.retries <= s.highWatermark
  {
    hide Structure, LevelsOk;
    var n := |s.retryState|;
    if k < n {
      LevelsAreOk(s);
      assert y in s.retryState[k].buf;
      BufferBelow(s.retryState, s.highWatermark, k, y);
    } else if k <= n + 1 {
      assert y in Back(s);
      BackBelow(s, b, y);
    } else {
      BrokerHeld(s, k - n - 2, y);
    }
  }

  /** What a broker producer that is not retrying holds is older than what is elsewhere. */
  lemma SessionFirst(s: State, b: nat, x: Message, k: nat, y: Message)
    requires Core(s) && b < |s.brokers| && !s.brokers[b].NeedsRetry()
    requires x in View(s.brokers[b]) && x.Data?
    requires k < |Layout(s)| && k != BrokerPart(s, b) && y in Layout(s)[k] && y.Data?
    ensures x.id < y.id
  {
    hide Structure, OncePerId, Older, Increasing, Chased;
    var p, i := Layout(s), BrokerPart(s, b);
    assert p[i] == View(s.brokers[b]);
    BrokerHeld(s, b, x);
    BelowWatermark(s, b, k, y);
    if k < i {
      assert Cross(p[k], p[i]);
      assert Before(y, x);
    } else {
      assert Cross(p[i], p[k]);
      assert Before(x, y);
    }
  }

  lemma SessionOlder(s: State, b: nat, n: nat, after: Parts, e: nat, k: nat, y: Message)
    requires Core(s) && b < |s.brokers| && !s.brokers[b].NeedsRetry()
    requires e < n <= |View(s.brokers[b])| && View(s.brokers[b])[e].Data?
    requires after == Layout(s)[BrokerPart(s, b) := Cut(View(s.brokers[b]), 0, n)]
    requires k < |after| && y in after[k] && y.Data?
    ensures View(s.brokers[b])[e].id < y.id
  {
    hide Core;
    var v, i := View(s.brokers[b]), BrokerPart(s, b);
    if k == i {
      var f :| 0 <= f < |after[i]| && after[i][f] == y;
      assert y == v[n + f];
      SessionOrder(s, b, e, n + f);
    } else {
      SessionFirst(s, b, v[e], k, y);
    }
  }

  /** What a broker gets acknowledged next is in order, and older than everything else alive. */
  lemma OldestAlive(s: State, b: nat, batch: seq<Message>, after: Parts)
    requires Core(s) && b < |s.brokers| && !s.brokers[b].NeedsRetry()
    requires batch <= s.brokers[b].Contents() && OnlyData(batch)
    requires after == Layout(s)[BrokerPart(s, b) := Cut(View(s.brokers[b]), 0, |batch|)]
    ensures Increasing(batch) && Older(batch, after)
  {
    hide Core;
    var v := View(s.brokers[b]);
    forall k | 0 <= k < |batch| ensures v[k].Data? && v[k].id == batch[k].id {
      assert batch[k] in batch && batch[k] == s.brokers[b].Contents()[k];
    }
    forall k, l | 0 <= k < l < |batch| ensures batch[k].id < batch[l].id {
      SessionOrder(s, b, k, l);
    }
    forall k, x: Message, y: Message | 0 <= k < |after| && x in batch && x.Data? && y in after[k] && y.Data? ensures x.id < y.id {
      var e :| 0 <= e < |batch| && batch[e] == x;
      SessionOlder(s, b, |batch|, after, e, k, y);
    }
  }

  lemma InFlightView(bp: BrokerProducer)
    requires OnlyData(bp.inFlight)
    ensures |bp.inFlight| <= |View(bp)| && OnlyData(View(bp)[0..|bp.inFlight|])
    ensures View(bp.(inFlight := [])) == Cut(View(bp), 0, |bp.inFlight|)
  {
    var batch, v := bp.inFlight, View(bp);
    assert bp.(inFlight := []).Contents() == bp.Contents()[|batch|..];
    forall m | m in v[0..|batch|] ensures m.Data? {
      var k :| 0 <= k < |batch| && v[k] == m;
      assert batch[k] in batch;
    }
  }

  lemma AcknowledgeCuts(s: State, t: State, b: nat)
    requires Structure(s) && b < |s.brokers|
    requires t == ReturnSuccesses(SetBroker(s, b, s.brokers[b].(inFlight := [])), s.brokers[b].inFlight)
         || t == ReturnErrors(SetBroker(s, b, s.brokers[b].(inFlight := [])), s.brokers[b].inFlight)
    ensures CutFromBroker(s, t, b, 0, |s.brokers[b].inFlight|) && OnlyData(s.brokers[b].inFlight)
  {
    hide Structure, ViewOk;
    BrokerIsOk(s, b);
    InFlightView(s.brokers[b]);
  }

  lemma Acknowledge(s: State, t: State, b: nat)
    requires Core(s) && b < |s.brokers| && !s.brokers[b].NeedsRetry()
    requires t == ReturnSuccesses(SetBroker(s, b, s.brokers[b].(inFlight := [])), s.brokers[b].inFlight)
    ensures Core(t)
  {
    hide Structure, Ledger, Older, Increasing;
    var batch, p, i := s.brokers[b].inFlight, Layout(s), BrokerPart(s, b);
    AcknowledgeCuts(s, t, b);
    assert p[i] == View(s.brokers[b]);
    LayoutBroker(s, t, b);
    OldestAlive(s, b, batch, Layout(t));
    LedgerAck(p, Layout(t), s.retryState, s.nextId, s.successes, s.errors, Live(s), i, batch);
    CutStructure(s, t, b, 0, |batch|);
  }
}
