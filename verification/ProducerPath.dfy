/**
  The path of live messages through the producer, cut into the parts that hold them: retry buffers,
  handler queue, retry queue, broker producers. Two user messages on the path compare by retry level
  first and by position second (`Before`); the account says where every message is.
 */
module ProducerPath {
  import opened ProducerProtocol

  type Parts = seq<seq<Message>>

  // ---------------------------------------------------------------- the order on the path

  /** x stands before y on the path: a higher level is older, and so is an earlier place. */
  predicate Before(x: Message, y: Message) {
    x.Data? && y.Data? ==> if x.retries >= y.retries then x.id < y.id else y.id < x.id
  }

  ghost predicate Sorted(p: seq<Message>) {
    forall i, j | 0 <= i < j < |p| :: Before(p[i], p[j])
  }

  ghost predicate Cross(p: seq<Message>, q: seq<Message>) {
    forall x, y | x in p && y in q :: Before(x, y)
  }

  ghost predicate Ordered(parts: Parts) {
    && (forall i | 0 <= i < |parts| :: Sorted(parts[i]))
    && (forall i, j | 0 <= i < j < |parts| :: Cross(parts[i], parts[j]))
  }

  function Cut(q: seq<Message>, from: nat, to: nat): seq<Message>
    requires from <= to <= |q|
  {
    q[..from] + q[to..]
  }

  lemma CutSorted(q: seq<Message>, from: nat, to: nat)
    requires Sorted(q) && from <= to <= |q|
    ensures Sorted(Cut(q, from, to))
  {
    var p := Cut(q, from, to);
    forall i, j | 0 <= i < j < |p| ensures Before(p[i], p[j]) {
      var i' := if i < from then i else i + to - from;
      var j' := if j < from then j else j + to - from;
      assert p[i] == q[i'] && p[j] == q[j'];
    }
  }

  lemma Shrink(parts: Parts, i: nat, from: nat, to: nat)
    requires Ordered(parts) && i < |parts| && from <= to <= |parts[i]|
    ensures Ordered(parts[i := Cut(parts[i], from, to)])
  {
    CutSorted(parts[i], from, to);
    var p := Cut(parts[i], from, to);
    forall m | m in p ensures m in parts[i] {}
  }

  lemma Push(parts: Parts, j: nat, m: Message)
    requires Ordered(parts) && j < |parts|
    requires forall i, x | 0 <= i <= j && x in parts[i] :: Before(x, m)
    requires forall i, x | j < i < |parts| && x in parts[i] :: Before(m, x)
    ensures Ordered(parts[j := parts[j] + [m]])
  {
    var p := parts[j] + [m];
    var after := parts[j := p];
    assert forall x | x in p :: x in parts[j] || x == m;
    forall a, b | 0 <= a < b < |p| ensures Before(p[a], p[b]) {
      if b == |p| - 1 {
        assert p[a] in parts[j];
      }
    }
    forall a, b | 0 <= a < b < |after| ensures Cross(after[a], after[b]) {
      assert Cross(parts[a], parts[b]);
    }
  }

  /** The oldest message of part i moves back to an earlier part, past messages of other levels. */
  lemma MoveLeft(parts: Parts, i: nat, j: nat)
    requires Ordered(parts) && j < i < |parts| && parts[i] != []
    requires forall k, y | j < k < i && y in parts[k] && y.Data? && parts[i][0].Data? :: y.retries != parts[i][0].retries
    ensures Ordered(parts[i := parts[i][1..]][j := parts[j] + [parts[i][0]]])
  {
    var x := parts[i][0];
    Shrink(parts, i, 0, 1);
    assert Cut(parts[i], 0, 1) == parts[i][1..];
    var rest := parts[i := parts[i][1..]];
    forall k, y | 0 <= k <= j && y in rest[k] ensures Before(y, x) {
      assert Cross(parts[k], parts[i]);
    }
    forall k, y | j < k < |parts| && y in rest[k] ensures Before(x, y) {
      if k < i {
        assert Cross(parts[k], parts[i]);
        assert Before(y, x);
      } else if k == i {
        var n :| 0 <= n < |rest[i]| && rest[i][n] == y;
        assert parts[i][n + 1] == y;
      } else {
        assert Cross(parts[i], parts[k]);
      }
    }
    Push(rest, j, x);
  }

  /** The oldest message of part i climbs one level and joins the end of a later part. */
  lemma MoveRight(parts: Parts, i: nat, j: nat)
    requires Ordered(parts) && i < j < |parts| && parts[i] != [] && parts[i][0].Data?
    requires forall k, y | 0 <= k < i && y in parts[k] && y.Data? :: y.retries != parts[i][0].retries
    requires forall k, y | j < k < |parts| && y in parts[k] && y.Data? :: y.retries != parts[i][0].retries + 1
    ensures Ordered(parts[i := parts[i][1..]][j := parts[j] + [Raised(parts[i][0])]])
  {
    var x := parts[i][0];
    Shrink(parts, i, 0, 1);
    assert Cut(parts[i], 0, 1) == parts[i][1..];
    var rest := parts[i := parts[i][1..]];
    forall k, y | 0 <= k <= j && y in rest[k] ensures Before(y, Raised(x)) {
      if k < i {
        assert Cross(parts[k], parts[i]);
        assert Before(y, x);
      } else if k == i {
        var n :| 0 <= n < |rest[i]| && rest[i][n] == y;
        assert parts[i][n + 1] == y;
        assert Before(x, y);
      } else {
        assert Cross(parts[i], parts[k]);
        assert Before(x, y);
      }
    }
    forall k, y | j < k < |parts| && y in rest[k] ensures Before(Raised(x), y) {
      assert Cross(parts[i], parts[k]);
      assert Before(x, y);
    }
    Push(rest, j, Raised(x));
  }

  // ---------------------------------------------------------------- what the parts hold together

  /** What to count: every message, copies of one message, or messages of one user id. */
  datatype Key = Any | Copy(m: Message) | User(id: nat)

  predicate Matches(m: Message, key: Key) {
    match key
    case Any => true
    case Copy(m') => m == m'
    case User(id) => m.Data? && m.id == id
  }

  function One(m: Message, key: Key): nat {
    if Matches(m, key) then 1 else 0
  }

  function Weight(q: seq<Message>, key: Key): nat {
    if q == [] then 0 else Weight(q[..|q| - 1], key) + One(q[|q| - 1], key)
  }

  function Tally(parts: Parts, key: Key): nat {
    if parts == [] then 0 else Tally(parts[..|parts| - 1], key) + Weight(parts[|parts| - 1], key)
  }

  lemma {:induction false} WeightConcat(p: seq<Message>, q: seq<Message>, key: Key)
    ensures Weight(p + q, key) == Weight(p, key) + Weight(q, key)
    decreases |q|
  {
    if q == [] {
      assert p + q == p;
    } else {
      assert (p + q)[..|p + q| - 1] == p + q[..|q| - 1];
      WeightConcat(p, q[..|q| - 1], key);
    }
  }

  lemma WeightOne(m: Message, key: Key)
    ensures Weight([m], key) == One(m, key)
  {
    assert [m][..0] == [];
  }

  lemma WeightPush(q: seq<Message>, m: Message, key: Key)
    ensures Weight(q + [m], key) == Weight(q, key) + One(m, key)
  {
    assert (q + [m])[..|q|] == q;
  }

  lemma WeightSplit(q: seq<Message>, n: nat, key: Key)
    requires n <= |q|
    ensures Weight(q, key) == Weight(q[..n], key) + Weight(q[n..], key)
  {
    assert q == q[..n] + q[n..];
    WeightConcat(q[..n], q[n..], key);
  }

  lemma WeightPop(q: seq<Message>, key: Key)
    requires q != []
    ensures Weight(q, key) == One(q[0], key) + Weight(q[1..], key)
  {
    WeightSplit(q, 1, key);
    assert q[..1] == [q[0]];
    WeightOne(q[0], key);
  }

  lemma {:induction false} WeightAny(q: seq<Message>)
    ensures Weight(q, Any) == |q|
  {
    if q != [] {
      WeightAny(q[..|q| - 1]);
    }
  }

  lemma {:induction false} WeightFound(q: seq<Message>, m: Message, key: Key)
    requires m in q && Matches(m, key)
    ensures Weight(q, key) > 0
  {
    var n := |q| - 1;
    if q[n] != m {
      assert q == q[..n] + [q[n]];
      WeightFound(q[..n], m, key);
    }
  }

  lemma {:induction false} WeightRaised(p: seq<Message>, q: seq<Message>, id: nat)
    requires |p| == |q| && forall k | 0 <= k < |p| :: q[k] == Raised(p[k])
    ensures Weight(p, User(id)) == Weight(q, User(id))
    decreases |p|
  {
    if p != [] {
      WeightRaised(p[..|p| - 1], q[..|q| - 1], id);
    }
  }

  /** Replacing one part changes the tally by exactly that part. */
  lemma {:induction false} Replace(parts: Parts, after: Parts, k: nat, key: Key)
    requires k < |parts| == |after| && after == parts[k := after[k]]
    ensures Tally(after, key) + Weight(parts[k], key) == Tally(parts, key) + Weight(after[k], key)
    decreases |parts|
  {
    var n := |parts| - 1;
    if k == n {
      assert after[..n] == parts[..n];
    } else {
      assert after[..n] == parts[..n][k := after[k]];
      Replace(parts[..n], after[..n], k, key);
    }
  }

  lemma {:induction false} PartInTally(parts: Parts, i: nat, key: Key)
    requires i < |parts|
    ensures Weight(parts[i], key) <= Tally(parts, key)
    decreases |parts|
  {
    var n := |parts| - 1;
    if i < n {
      PartInTally(parts[..n], i, key);
    }
  }

  /** A message found in two parts counts twice. */
  lemma {:induction false} TwoParts(parts: Parts, i: nat, j: nat, m: Message)
    requires i < j < |parts| && m in parts[i] && m in parts[j]
    ensures Tally(parts, Copy(m)) >= 2
    decreases |parts|
  {
    var n := |parts| - 1;
    if j < n {
      TwoParts(parts[..n], i, j, m);
    } else {
      PartInTally(parts[..n], i, Copy(m));
      WeightFound(parts[i], m, Copy(m));
      WeightFound(parts[n], m, Copy(m));
    }
  }

  lemma TwiceInPart(parts: Parts, i: nat, a: nat, b: nat)
    requires i < |parts| && a < b < |parts[i]| && parts[i][a] == parts[i][b]
    ensures Tally(parts, Copy(parts[i][a])) >= 2
  {
    var p, m := parts[i], parts[i][a];
    WeightSplit(p, b, Copy(m));
    assert p[..b][a] == m && p[b..][0] == m;
    WeightFound(p[..b], m, Copy(m));
    WeightFound(p[b..], m, Copy(m));
    PartInTally(parts, i, Copy(m));
  }

  lemma {:induction false} WeightWitness(q: seq<Message>, key: Key)
    requires Weight(q, key) > 0
    ensures exists m :: m in q && Matches(m, key)
  {
    var n := |q| - 1;
    if !Matches(q[n], key) {
      WeightWitness(q[..n], key);
      var m :| m in q[..n] && Matches(m, key);
      assert m in q;
    } else {
      assert q[n] in q;
    }
  }

  lemma {:induction false} InTally(parts: Parts, m: Message)
    requires Tally(parts, Copy(m)) > 0
    ensures exists i :: 0 <= i < |parts| && m in parts[i]
    decreases |parts|
  {
    var n := |parts| - 1;
    if Weight(parts[n], Copy(m)) > 0 {
      WeightWitness(parts[n], Copy(m));
    } else {
      InTally(parts[..n], m);
      var i :| 0 <= i < n && m in parts[..n][i];
      assert parts[..n][i] == parts[i];
    }
  }

  // ---------------------------------------------------------------- the account

  ghost predicate OnlyData(q: seq<Message>) {
    forall m | m in q :: m.Data?
  }

  ghost predicate Increasing(q: seq<Message>) {
    && OnlyData(q)
    && forall i, j | 0 <= i < j < |q| :: q[i].id < q[j].id
  }

  /** What was acknowledged is older than every user message still alive. */
  ghost predicate Older(batch: seq<Message>, parts: Parts) {
    forall i, x, y | 0 <= i < |parts| && x in batch && x.Data? && y in parts[i] && y.Data? :: x.id < y.id
  }

  /** Every id handed out so far is in exactly one place: acknowledged, failed, or alive. */
  ghost predicate OncePerId(parts: Parts, nextId: nat, successes: seq<Message>, errors: seq<Message>) {
    forall id: nat ::
      Weight(successes, User(id)) + Weight(errors, User(id)) + Tally(parts, User(id)) == if id < nextId then 1 else 0
  }

  ghost predicate Account(parts: Parts, nextId: nat, successes: seq<Message>, errors: seq<Message>) {
    && Ordered(parts)
    && Increasing(successes)
    && OnlyData(errors)
    && Older(successes, parts)
    && OncePerId(parts, nextId, successes, errors)
  }

  lemma IdBound(parts: Parts, nextId: nat, successes: seq<Message>, errors: seq<Message>, i: nat, m: Message)
    requires OncePerId(parts, nextId, successes, errors) && i < |parts| && m in parts[i] && m.Data?
    ensures m.id < nextId
  {
    WeightFound(parts[i], m, User(m.id));
    PartInTally(parts, i, User(m.id));
  }

  lemma SuccessBound(parts: Parts, nextId: nat, successes: seq<Message>, errors: seq<Message>, m: Message)
    requires OncePerId(parts, nextId, successes, errors) && m in successes && m.Data?
    ensures m.id < nextId
  {
    WeightFound(successes, m, User(m.id));
    assert Tally(parts, User(m.id)) >= 0;
  }

  /** Every user id alive after a rearrangement was alive before it. */
  ghost predicate NoNewIds(parts: Parts, after: Parts) {
    forall i, y | 0 <= i < |after| && y in after[i] && y.Data? ::
      exists k, x :: 0 <= k < |parts| && x in parts[k] && x.Data? && x.id == y.id
  }

  lemma StillOlder(successes: seq<Message>, parts: Parts, after: Parts)
    requires Older(successes, parts) && NoNewIds(parts, after)
    ensures Older(successes, after)
  {}

  /** The head of part i, as it is or raised, joins the end of part j. */
  lemma MoveTally(parts: Parts, after: Parts, i: nat, j: nat, m: Message, key: Key)
    requires i < |parts| && j < |parts| && i != j && parts[i] != []
    requires after == parts[i := parts[i][1..]][j := parts[j] + [m]]
    ensures Tally(after, key) == Tally(parts, key) - One(parts[i][0], key) + One(m, key)
  {
    var mid := parts[i := parts[i][1..]];
    Replace(parts, mid, i, key);
    Replace(mid, after, j, key);
    WeightPop(parts[i], key);
    WeightPush(parts[j], m, key);
  }

  lemma AccountMove(parts: Parts, after: Parts, nextId: nat, successes: seq<Message>, errors: seq<Message>,
                    i: nat, j: nat, m: Message)
    requires Account(parts, nextId, successes, errors)
    requires i < |parts| && j < |parts| && i != j && parts[i] != []
    requires m == parts[i][0] || m == Raised(parts[i][0])
    requires after == parts[i := parts[i][1..]][j := parts[j] + [m]] && Ordered(after)
    ensures Account(after, nextId, successes, errors)
  {
    var x := parts[i][0];
    forall id: nat ensures Tally(after, User(id)) == Tally(parts, User(id)) {
      MoveTally(parts, after, i, j, m, User(id));
    }
    forall k, y | 0 <= k < |after| && y in after[k] && y.Data?
      ensures exists k', y' :: 0 <= k' < |parts| && y' in parts[k'] && y'.Data? && y'.id == y.id
    {
      if k == j && y == m {
        assert x in parts[i] && x.Data? && x.id == y.id;
      } else {
        assert y in parts[k];
      }
    }
    StillOlder(successes, parts, after);
  }

  lemma MarkerTally(parts: Parts, after: Parts, j: nat, m: Message, key: Key)
    requires j < |parts| && after == parts[j := parts[j] + [m]]
    ensures Tally(after, key) == Tally(parts, key) + One(m, key)
  {
    Replace(parts, after, j, key);
    WeightPush(parts[j], m, key);
  }

  lemma AccountMarker(parts: Parts, after: Parts, nextId: nat, successes: seq<Message>, errors: seq<Message>, j: nat, m: Message)
    requires Account(parts, nextId, successes, errors) && j < |parts| && !m.Data?
    requires after == parts[j := parts[j] + [m]]
    ensures Account(after, nextId, successes, errors)
  {
    Push(parts, j, m);
    forall id: nat ensures Tally(after, User(id)) == Tally(parts, User(id)) {
      MarkerTally(parts, after, j, m, User(id));
    }
    forall k, y | 0 <= k < |after| && y in after[k] && y.Data?
      ensures exists k', y' :: 0 <= k' < |parts| && y' in parts[k'] && y'.Data? && y'.id == y.id
    {
      assert y in parts[k];
    }
    StillOlder(successes, parts, after);
  }

  lemma CutTally(parts: Parts, after: Parts, i: nat, from: nat, to: nat, key: Key)
    requires i < |parts| && from <= to <= |parts[i]| && after == parts[i := Cut(parts[i], from, to)]
    ensures Tally(after, key) + Weight(parts[i][from..to], key) == Tally(parts, key)
  {
    var q := parts[i];
    Replace(parts, after, i, key);
    WeightSplit(q, from, key);
    WeightSplit(q[from..], to - from, key);
    assert q[from..][..to - from] == q[from..to] && q[from..][to - from..] == q[to..];
    WeightConcat(q[..from], q[to..], key);
  }

  /** A stretch of a part leaves the path, and `failed` is returned as errors instead. */
  lemma AccountCut(parts: Parts, after: Parts, nextId: nat, successes: seq<Message>, errors: seq<Message>,
                   i: nat, from: nat, to: nat, failed: seq<Message>)
    requires Account(parts, nextId, successes, errors) && i < |parts| && from <= to <= |parts[i]|
    requires after == parts[i := Cut(parts[i], from, to)] && OnlyData(failed)
    requires forall id: nat :: Weight(failed, User(id)) == Weight(parts[i][from..to], User(id))
    ensures Account(after, nextId, successes, errors + failed)
  {
    Shrink(parts, i, from, to);
    forall id: nat
      ensures Weight(successes, User(id)) + Weight(errors + failed, User(id)) + Tally(after, User(id))
           == if id < nextId then 1 else 0
    {
      CutTally(parts, after, i, from, to, User(id));
      WeightConcat(errors, failed, User(id));
      assert Weight(failed, User(id)) == Weight(parts[i][from..to], User(id));
    }
    CutOlder(successes, parts, after, i, from, to);
  }

  lemma CutOlder(batch: seq<Message>, parts: Parts, after: Parts, i: nat, from: nat, to: nat)
    requires Older(batch, parts) && i < |parts| && from <= to <= |parts[i]|
    requires after == parts[i := Cut(parts[i], from, to)]
    ensures Older(batch, after)
  {
    forall k, y | 0 <= k < |after| && y in after[k] && y.Data?
      ensures exists k', y' :: 0 <= k' < |parts| && y' in parts[k'] && y'.Data? && y'.id == y.id
    {
      assert y in parts[k];
    }
    StillOlder(batch, parts, after);
  }

  lemma AccountDropMarker(parts: Parts, after: Parts, nextId: nat, successes: seq<Message>, errors: seq<Message>, i: nat)
    requires Account(parts, nextId, successes, errors) && i < |parts| && parts[i] != [] && !parts[i][0].Data?
    requires after == parts[i := parts[i][1..]]
    ensures Account(after, nextId, successes, errors)
  {
    assert parts[i][0..1] == [parts[i][0]];
    assert Cut(parts[i], 0, 1) == parts[i][1..];
    forall id: nat ensures Weight([], User(id)) == Weight(parts[i][0..1], User(id)) {
      WeightOne(parts[i][0], User(id));
    }
    AccountCut(parts, after, nextId, successes, errors, i, 0, 1, []);
    assert errors + [] == errors;
  }

  lemma AckOncePerId(parts: Parts, after: Parts, nextId: nat, successes: seq<Message>, errors: seq<Message>,
                     i: nat, batch: seq<Message>)
    requires OncePerId(parts, nextId, successes, errors) && i < |parts| && |batch| <= |parts[i]|
    requires after == parts[i := Cut(parts[i], 0, |batch|)]
    requires forall k | 0 <= k < |batch| :: parts[i][k] == Raised(batch[k])
    ensures OncePerId(after, nextId, successes + batch, errors)
  {
    forall id: nat
      ensures Weight(successes + batch, User(id)) + Weight(errors, User(id)) + Tally(after, User(id))
           == if id < nextId then 1 else 0
    {
      CutTally(parts, after, i, 0, |batch|, User(id));
      WeightConcat(successes, batch, User(id));
      WeightRaised(batch, parts[i][0..|batch|], id);
      assert Weight(successes, User(id)) + Weight(errors, User(id)) + Tally(parts, User(id)) == if id < nextId then 1 else 0;
    }
  }

  lemma AckIncreasing(parts: Parts, successes: seq<Message>, i: nat, batch: seq<Message>)
    requires Increasing(successes) && Older(successes, parts) && i < |parts| && |batch| <= |parts[i]|
    requires Increasing(batch) && forall k | 0 <= k < |batch| :: parts[i][k] == Raised(batch[k])
    ensures Increasing(successes + batch)
  {
    var all := successes + batch;
    forall a, b | 0 <= a < b < |all| ensures all[a].id < all[b].id {
      if a < |successes| <= b {
        var k := b - |successes|;
        assert parts[i][k] in parts[i] && batch[k] in batch && parts[i][k].id == batch[k].id;
        assert successes[a] in successes;
      }
    }
  }

  /** The first messages of a part, older than everything else alive, are acknowledged. */
  lemma AccountAck(parts: Parts, after: Parts, nextId: nat, successes: seq<Message>, errors: seq<Message>,
                   i: nat, batch: seq<Message>)
    requires Account(parts, nextId, successes, errors) && i < |parts| && |batch| <= |parts[i]|
    requires after == parts[i := Cut(parts[i], 0, |batch|)]
    requires Increasing(batch) && forall k | 0 <= k < |batch| :: parts[i][k] == Raised(batch[k])
    requires Older(batch, after)
    ensures Account(after, nextId, successes + batch, errors)
  {
    Shrink(parts, i, 0, |batch|);
    AckOncePerId(parts, after, nextId, successes, errors, i, batch);
    AckIncreasing(parts, successes, i, batch);
    forall k, x, y | 0 <= k < |after| && x in successes + batch && x.Data? && y in after[k] && y.Data?
      ensures x.id < y.id
    {
      if x in successes {
        assert y in parts[k];
      }
    }
  }

  /** A user message that just arrived at level 0 is younger than everything else. */
  lemma AccountArrive(parts: Parts, after: Parts, nextId: nat, successes: seq<Message>, errors: seq<Message>, j: nat)
    requires Account(parts, nextId, successes, errors) && j < |parts|
    requires forall k, y | j < k < |parts| && y in parts[k] && y.Data? :: y.retries > 0
    requires after == parts[j := parts[j] + [Data(nextId, 0)]]
    ensures Account(after, nextId + 1, successes, errors)
  {
    var m := Data(nextId, 0);
    forall k, y | 0 <= k < |parts| && y in parts[k] && y.Data? ensures y.id < nextId {
      IdBound(parts, nextId, successes, errors, k, y);
    }
    Push(parts, j, m);
    forall id: nat ensures Tally(after, User(id)) == Tally(parts, User(id)) + One(m, User(id)) {
      MarkerTally(parts, after, j, m, User(id));
    }
    forall k, x, y | 0 <= k < |after| && x in successes && x.Data? && y in after[k] && y.Data? ensures x.id < y.id {
      SuccessBound(parts, nextId, successes, errors, x);
      if y != m {
        assert y in parts[k];
      }
    }
  }

  lemma AccountRefuse(parts: Parts, nextId: nat, successes: seq<Message>, errors: seq<Message>)
    requires Account(parts, nextId, successes, errors)
    ensures Account(parts, nextId + 1, successes, errors + [Data(nextId, 0)])
  {
    forall id: nat
      ensures Weight(successes, User(id)) + Weight(errors + [Data(nextId, 0)], User(id)) + Tally(parts, User(id))
           == if id < nextId + 1 then 1 else 0
    {
      WeightPush(errors, Data(nextId, 0), User(id));
      assert Weight(successes, User(id)) + Weight(errors, User(id)) + Tally(parts, User(id)) == if id < nextId then 1 else 0;
    }
  }

  lemma GrowTally(parts: Parts, after: Parts, key: Key)
    requires after == parts + [[]]
    ensures Tally(after, key) == Tally(parts, key)
  {
    assert after[..|parts|] == parts;
  }

  lemma AccountGrow(parts: Parts, after: Parts, nextId: nat, successes: seq<Message>, errors: seq<Message>)
    requires Account(parts, nextId, successes, errors) && after == parts + [[]]
    ensures Account(after, nextId, successes, errors)
  {
    forall id: nat ensures Tally(after, User(id)) == Tally(parts, User(id)) {
      GrowTally(parts, after, User(id));
    }
  }

  // ---------------------------------------------------------------- the ledger

  /** The account, the number of messages alive, and one fin under way for each chaser expected. */
  ghost predicate Ledger(parts: Parts, levels: seq<RetryLevel>, nextId: nat,
                         successes: seq<Message>, errors: seq<Message>, live: int) {
    && Account(parts, nextId, successes, errors)
    && live == Tally(parts, Any)
    && Chased(parts, levels)
  }

  ghost predicate Chased(parts: Parts, levels: seq<RetryLevel>) {
    forall k | 1 <= k < |levels| :: Tally(parts, Copy(Fin(k))) == if levels[k].expectChaser then 1 else 0
  }

  ghost predicate SameChasers(levels: seq<RetryLevel>, levels': seq<RetryLevel>) {
    |levels| == |levels'| && forall k | 0 <= k < |levels| :: levels'[k].expectChaser == levels[k].expectChaser
  }

  lemma OneFin(parts: Parts, levels: seq<RetryLevel>, i: nat, j: nat, k: nat)
    requires Chased(parts, levels) && i < j < |parts| && 1 <= k < |levels|
    ensures !(Fin(k) in parts[i] && Fin(k) in parts[j])
  {
    if Fin(k) in parts[i] && Fin(k) in parts[j] {
      TwoParts(parts, i, j, Fin(k));
    }
  }

  lemma LedgerMove(parts: Parts, after: Parts, levels: seq<RetryLevel>, levels': seq<RetryLevel>, nextId: nat,
                   successes: seq<Message>, errors: seq<Message>, live: int, i: nat, j: nat, m: Message)
    requires Ledger(parts, levels, nextId, successes, errors, live) && SameChasers(levels, levels')
    requires i < |parts| && j < |parts| && i != j && parts[i] != []
    requires m == parts[i][0] || (m == Raised(parts[i][0]) && m.Data?)
    requires after == parts[i := parts[i][1..]][j := parts[j] + [m]] && Ordered(after)
    ensures Ledger(after, levels', nextId, successes, errors, live)
  {
    hide Ordered, Account;
    AccountMove(parts, after, nextId, successes, errors, i, j, m);
    MoveTally(parts, after, i, j, m, Any);
    forall k | 1 <= k < |levels'| ensures Tally(after, Copy(Fin(k))) == if levels'[k].expectChaser then 1 else 0 {
      MoveTally(parts, after, i, j, m, Copy(Fin(k)));
    }
  }

  lemma CutChased(parts: Parts, after: Parts, levels: seq<RetryLevel>, levels': seq<RetryLevel>, i: nat, from: nat, to: nat)
    requires Chased(parts, levels) && SameChasers(levels, levels') && i < |parts| && from <= to <= |parts[i]|
    requires after == parts[i := Cut(parts[i], from, to)] && OnlyData(parts[i][from..to])
    ensures Chased(after, levels') && Tally(after, Any) == Tally(parts, Any) - (to - from)
  {
    var q := parts[i][from..to];
    CutTally(parts, after, i, from, to, Any);
    WeightAny(q);
    forall k | 1 <= k < |levels'| ensures Tally(after, Copy(Fin(k))) == if levels'[k].expectChaser then 1 else 0 {
      CutTally(parts, after, i, from, to, Copy(Fin(k)));
      if Weight(q, Copy(Fin(k))) > 0 {
        WeightWitness(q, Copy(Fin(k)));
      }
    }
  }

  /** User messages leave the path; `failed`, with the same ids, is returned as errors. */
  lemma LedgerFail(parts: Parts, after: Parts, levels: seq<RetryLevel>, levels': seq<RetryLevel>, nextId: nat,
                   successes: seq<Message>, errors: seq<Message>, live: int, i: nat, from: nat, failed: seq<Message>)
    requires Ledger(parts, levels, nextId, successes, errors, live) && SameChasers(levels, levels')
    requires i < |parts| && from + |failed| <= |parts[i]| && OnlyData(failed)
    requires forall k | 0 <= k < |failed| :: parts[i][from + k] == failed[k] || parts[i][from + k] == Raised(failed[k])
    requires after == parts[i := Cut(parts[i], from, from + |failed|)]
    ensures Ledger(after, levels', nextId, successes, errors + failed, live - |failed|)
  {
    hide Account;
    var to := from + |failed|;
    var q := parts[i][from..to];
    forall m | m in q ensures m.Data? {
      var k :| 0 <= k < |q| && q[k] == m;
      assert q[k] == parts[i][from + k] && failed[k] in failed;
    }
    forall id: nat ensures Weight(failed, User(id)) == Weight(q, User(id)) {
      WeightSameIds(failed, q, id);
    }
    AccountCut(parts, after, nextId, successes, errors, i, from, to, failed);
    CutChased(parts, after, levels, levels', i, from, to);
  }

  lemma {:induction false} WeightSameIds(p: seq<Message>, q: seq<Message>, id: nat)
    requires |p| == |q| && forall k | 0 <= k < |p| :: q[k] == p[k] || q[k] == Raised(p[k])
    ensures Weight(p, User(id)) == Weight(q, User(id))
    decreases |p|
  {
    if p != [] {
      WeightSameIds(p[..|p| - 1], q[..|q| - 1], id);
    }
  }

  lemma LedgerAck(parts: Parts, after: Parts, levels: seq<RetryLevel>, nextId: nat,
                  successes: seq<Message>, errors: seq<Message>, live: int, i: nat, batch: seq<Message>)
    requires Ledger(parts, levels, nextId, successes, errors, live) && i < |parts| && |batch| <= |parts[i]|
    requires after == parts[i := Cut(parts[i], 0, |batch|)]
    requires Increasing(batch) && forall k | 0 <= k < |batch| :: parts[i][k] == Raised(batch[k])
    requires Older(batch, after)
    ensures Ledger(after, levels, nextId, successes + batch, errors, live - |batch|)
  {
    AccountAck(parts, after, nextId, successes, errors, i, batch);
    hide Account;
    forall m | m in parts[i][0..|batch|] ensures m.Data? {
      var k :| 0 <= k < |batch| && parts[i][k] == m;
      assert batch[k] in batch;
    }
    CutChased(parts, after, levels, levels, i, 0, |batch|);
  }

  /** A marker is sent; if it is a fin, its chaser is expected from now on. */
  lemma LedgerMarker(parts: Parts, after: Parts, levels: seq<RetryLevel>, levels': seq<RetryLevel>, nextId: nat,
                     successes: seq<Message>, errors: seq<Message>, live: int, j: nat, m: Message)
    requires Ledger(parts, levels, nextId, successes, errors, live) && j < |parts| && !m.Data?
    requires after == parts[j := parts[j] + [m]] && |levels'| == |levels|
    requires forall k | 0 <= k < |levels| :: levels'[k].expectChaser == (levels[k].expectChaser || m == Fin(k))
    requires m.Fin? && m.retries < |levels| ==> !levels[m.retries].expectChaser
    ensures Ledger(after, levels', nextId, successes, errors, live + 1)
  {
    hide Account;
    AccountMarker(parts, after, nextId, successes, errors, j, m);
    MarkerTally(parts, after, j, m, Any);
    forall k | 1 <= k < |levels'| ensures Tally(after, Copy(Fin(k))) == if levels'[k].expectChaser then 1 else 0 {
      MarkerTally(parts, after, j, m, Copy(Fin(k)));
    }
  }

  /** The marker at the head of a part is consumed; if it is a fin, its chaser is no longer expected. */
  lemma LedgerDrop(parts: Parts, after: Parts, levels: seq<RetryLevel>, levels': seq<RetryLevel>, nextId: nat,
                   successes: seq<Message>, errors: seq<Message>, live: int, i: nat)
    requires Ledger(parts, levels, nextId, successes, errors, live)
    requires i < |parts| && parts[i] != [] && !parts[i][0].Data?
    requires after == parts[i := parts[i][1..]] && |levels'| == |levels|
    requires forall k | 0 <= k < |levels| :: levels'[k].expectChaser == (levels[k].expectChaser && parts[i][0] != Fin(k))
    ensures Ledger(after, levels', nextId, successes, errors, live - 1)
  {
    hide Account;
    AccountDropMarker(parts, after, nextId, successes, errors, i);
    Replace(parts, after, i, Any);
    WeightPop(parts[i], Any);
    forall k | 1 <= k < |levels'| ensures Tally(after, Copy(Fin(k))) == if levels'[k].expectChaser then 1 else 0 {
      Replace(parts, after, i, Copy(Fin(k)));
      WeightPop(parts[i], Copy(Fin(k)));
    }
  }

  lemma LedgerArrive(parts: Parts, after: Parts, levels: seq<RetryLevel>, nextId: nat,
                     successes: seq<Message>, errors: seq<Message>, live: int, j: nat)
    requires Ledger(parts, levels, nextId, successes, errors, live) && j < |parts|
    requires forall k, y | j < k < |parts| && y in parts[k] && y.Data? :: y.retries > 0
    requires after == parts[j := parts[j] + [Data(nextId, 0)]]
    ensures Ledger(after, levels, nextId + 1, successes, errors, live + 1)
  {
    hide Account;
    var m := Data(nextId, 0);
    AccountArrive(parts, after, nextId, successes, errors, j);
    MarkerTally(parts, after, j, m, Any);
    forall k | 1 <= k < |levels| ensures Tally(after, Copy(Fin(k))) == if levels[k].expectChaser then 1 else 0 {
      MarkerTally(parts, after, j, m, Copy(Fin(k)));
    }
  }

  lemma LedgerRefuse(parts: Parts, levels: seq<RetryLevel>, nextId: nat,
                     successes: seq<Message>, errors: seq<Message>, live: int)
    requires Ledger(parts, levels, nextId, successes, errors, live)
    ensures Ledger(parts, levels, nextId + 1, successes, errors + [Data(nextId, 0)], live)
  {
    hide Account;
    AccountRefuse(parts, nextId, successes, errors);
  }

  lemma LedgerGrow(parts: Parts, after: Parts, levels: seq<RetryLevel>, nextId: nat,
                   successes: seq<Message>, errors: seq<Message>, live: int)
    requires Ledger(parts, levels, nextId, successes, errors, live) && after == parts + [[]]
    ensures Ledger(after, levels, nextId, successes, errors, live)
  {
    hide Account;
    AccountGrow(parts, after, nextId, successes, errors);
    GrowTally(parts, after, Any);
    forall k | 1 <= k < |levels| ensures Tally(after, Copy(Fin(k))) == if levels[k].expectChaser then 1 else 0 {
      GrowTally(parts, after, Copy(Fin(k)));
    }
  }

  lemma {:induction false} EmptyTally(parts: Parts, key: Key)
    requires forall i | 0 <= i < |parts| :: parts[i] == []
    ensures Tally(parts, key) == 0
    decreases |parts|
  {
    if parts != [] {
      EmptyTally(parts[..|parts| - 1], key);
    }
  }

  lemma LedgerEmpty(parts: Parts, levels: seq<RetryLevel>)
    requires forall i | 0 <= i < |parts| :: parts[i] == []
    requires forall k | 0 <= k < |levels| :: !levels[k].expectChaser
    ensures Ledger(parts, levels, 0, [], [], 0)
  {
    forall key: Key ensures Tally(parts, key) == 0 {
      EmptyTally(parts, key);
    }
  }

  lemma NothingAlive(parts: Parts, levels: seq<RetryLevel>, nextId: nat,
                     successes: seq<Message>, errors: seq<Message>, i: nat)
    requires Ledger(parts, levels, nextId, successes, errors, 0) && i < |parts|
    ensures parts[i] == []
  {
    PartInTally(parts, i, Any);
    WeightAny(parts[i]);
  }
}
