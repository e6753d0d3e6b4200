/**
  The balance strategies of consumer groups. A plan gives every member a list of partitions for each
  topic; which member owns a partition is a function of its position in the topic's list.
 */
module Balance {
  type Plan = map<string, map<string, seq<int>>>

  function Share(plan: Plan, member: string, topic: string): seq<int> {
    if member in plan && topic in plan[member] then plan[member][topic] else []
  }

  /** Adds partitions to a member's share of a topic. */
  function Add(plan: Plan, member: string, topic: string, partitions: seq<int>): Plan {
    if partitions == [] then plan
    else
      var shares := if member in plan then plan[member] else map[];
      plan[member := shares[topic := Share(plan, member, topic) + partitions]]
  }

  lemma AddShare(plan: Plan, member: string, topic: string, partitions: seq<int>, m: string, t: string)
    ensures Share(Add(plan, member, topic, partitions), m, t) ==
            Share(plan, m, t) + if m == member && t == topic then partitions else []
  {
    if partitions == [] || m != member || t != topic {
      assert Share(plan, m, t) + [] == Share(plan, m, t);
    }
  }

  // ---------------------------------------------------------------- owners

  /** The partitions at the positions that a member owns, in order. */
  function Pick(partitions: seq<int>, owners: seq<string>, member: string): seq<int>
    requires |owners| == |partitions|
  {
    if partitions == [] then []
    else (if owners[0] == member then [partitions[0]] else []) + Pick(partitions[1..], owners[1..], member)
  }

  function Count(owners: seq<string>, member: string): nat {
    if owners == [] then 0 else (if owners[0] == member then 1 else 0) + Count(owners[1..], member)
  }

  lemma {:induction false} PickSize(partitions: seq<int>, owners: seq<string>, member: string)
    requires |owners| == |partitions|
    ensures |Pick(partitions, owners, member)| == Count(owners, member)
  {
    if partitions != [] {
      PickSize(partitions[1..], owners[1..], member);
    }
  }

  lemma {:induction false} PickJoin(ps: seq<int>, os: seq<string>, qs: seq<int>, ws: seq<string>, member: string)
    requires |os| == |ps| && |ws| == |qs|
    ensures Pick(ps + qs, os + ws, member) == Pick(ps, os, member) + Pick(qs, ws, member)
  {
    if ps == [] {
      assert ps + qs == qs && os + ws == ws;
    } else {
      PickJoin(ps[1..], os[1..], qs, ws, member);
      var head := if os[0] == member then [ps[0]] else [];
      assert (ps + qs)[1..] == ps[1..] + qs && (os + ws)[1..] == os[1..] + ws;
      assert (ps + qs)[0] == ps[0] && (os + ws)[0] == os[0];
      Regroup(head, Pick(ps[1..], os[1..], member), Pick(qs, ws, member));
    }
  }

  lemma {:induction false} CountJoin(os: seq<string>, ws: seq<string>, member: string)
    ensures Count(os + ws, member) == Count(os, member) + Count(ws, member)
  {
    if os == [] {
      assert os + ws == ws;
    } else {
      CountJoin(os[1..], ws, member);
      assert (os + ws)[1..] == os[1..] + ws;
    }
  }

  function Repeat(member: string, n: nat): (s: seq<string>)
    ensures |s| == n && forall i :: 0 <= i < n ==> s[i] == member
  {
    seq(n, _ => member)
  }

  lemma {:induction false} RepeatCount(member: string, n: nat, other: string)
    ensures Count(Repeat(member, n), other) == if other == member then n else 0
  {
    if n > 0 {
      RepeatCount(member, n - 1, other);
      assert Repeat(member, n)[1..] == Repeat(member, n - 1);
    }
  }

  lemma {:induction false} RepeatPick(member: string, partitions: seq<int>, other: string)
    ensures Pick(partitions, Repeat(member, |partitions|), other) == if other == member then partitions else []
  {
    if partitions != [] {
      RepeatPick(member, partitions[1..], other);
      assert Repeat(member, |partitions|)[1..] == Repeat(member, |partitions| - 1);
    }
  }

  // ---------------------------------------------------------------- ranges

  /** Where the range of member i begins, for n partitions and k members. */
  function Bound(n: nat, k: nat, i: nat): int
    requires k > 0
  {
    var step := n as real / k as real;
    (i as real * step + 0.5).Floor
  }

  lemma BoundEnds(n: nat, k: nat)
    requires k > 0
    ensures Bound(n, k, 0) == 0 && Bound(n, k, k) == n
  {
    var step := n as real / k as real;
    assert k as real * step == n as real;
  }

  lemma BoundStep(n: nat, k: nat, i: nat)
    requires k > 0
    ensures var step := n as real / k as real;
            var size := Bound(n, k, i + 1) - Bound(n, k, i);
            0 <= size && step - 1.0 < size as real < step + 1.0
  {
    var step := n as real / k as real;
    var x := i as real * step + 0.5;
    var y := (i + 1) as real * step + 0.5;
    assert y == x + step;
    assert x.Floor as real <= x < x.Floor as real + 1.0;
    assert y.Floor as real <= y < y.Floor as real + 1.0;
  }

  lemma {:induction false} BoundsRise(n: nat, k: nat, i: nat)
    requires k > 0 && i <= k
    ensures 0 <= Bound(n, k, i) <= n
    decreases k - i
  {
    if i == k {
      BoundEnds(n, k);
    } else {
      BoundsRise(n, k, i + 1);
      BoundStep(n, k, i);
      BoundAbove(n, k, i);
    }
  }

  lemma {:induction false} BoundAbove(n: nat, k: nat, i: nat)
    requires k > 0
    ensures Bound(n, k, i) >= 0
  {
    if i == 0 {
      BoundEnds(n, k);
    } else {
      BoundAbove(n, k, i - 1);
      BoundStep(n, k, i - 1);
    }
  }

  /** The owners of the first partitions, given the ranges of the first i members. */
  function RangeOwners(n: nat, ids: seq<string>, i: nat): seq<string>
    requires ids != [] && i <= |ids|
  {
    if i == 0 then []
    else
      var size := Bound(n, |ids|, i) - Bound(n, |ids|, i - 1);
      RangeOwners(n, ids, i - 1) + Repeat(ids[i - 1], if size >= 0 then size else 0)
  }

  lemma {:induction false} RangeLength(n: nat, ids: seq<string>, i: nat)
    requires ids != [] && i <= |ids|
    ensures |RangeOwners(n, ids, i)| == Bound(n, |ids|, i)
  {
    if i == 0 {
      BoundEnds(n, |ids|);
    } else {
      RangeLength(n, ids, i - 1);
      BoundStep(n, |ids|, i - 1);
    }
  }

  ghost predicate NoRepeats(ids: seq<string>) {
    forall i, j :: 0 <= i < j < |ids| ==> ids[i] != ids[j]
  }

  lemma {:induction false} RangeCount(n: nat, ids: seq<string>, i: nat, j: nat)
    requires NoRepeats(ids) && i <= |ids| && j < |ids|
    ensures Count(RangeOwners(n, ids, i), ids[j]) ==
            if j < i then Bound(n, |ids|, j + 1) - Bound(n, |ids|, j) else 0
  {
    if i > 0 {
      RangeCount(n, ids, i - 1, j);
      BoundStep(n, |ids|, i - 1);
      var size := Bound(n, |ids|, i) - Bound(n, |ids|, i - 1);
      CountJoin(RangeOwners(n, ids, i - 1), Repeat(ids[i - 1], size), ids[j]);
      RepeatCount(ids[i - 1], size, ids[j]);
    }
  }

  /** The shares of two members differ by at most one. */
  lemma RangeBalanced(n: nat, ids: seq<string>, a: nat, b: nat)
    requires NoRepeats(ids) && a < |ids| && b < |ids|
    ensures var owners := RangeOwners(n, ids, |ids|);
            Count(owners, ids[a]) <= Count(owners, ids[b]) + 1
  {
    RangeCount(n, ids, |ids|, a);
    RangeCount(n, ids, |ids|, b);
    BoundStep(n, |ids|, a);
    BoundStep(n, |ids|, b);
  }

  /** The boundary of a range is the whole number nearest to its exact place. */
  lemma BoundNearest(n: nat, k: nat, i: nat)
    requires k > 0
    ensures var exact := i as real * (n as real / k as real);
            exact - 0.5 < Bound(n, k, i) as real <= exact + 0.5
  {}

  /** Members get whole ranges, in their order: positions between two boundaries belong to the member between. */
  lemma {:induction false} RangeAt(n: nat, ids: seq<string>, i: nat, j: nat, p: nat)
    requires ids != [] && j < i <= |ids| && Bound(n, |ids|, j) <= p < Bound(n, |ids|, j + 1)
    ensures p < |RangeOwners(n, ids, i)| && RangeOwners(n, ids, i)[p] == ids[j]
    decreases i
  {
    hide Bound;
    RangeLength(n, ids, i);
    RangeLength(n, ids, i - 1);
    if j < i - 1 {
      RangeAt(n, ids, i - 1, j, p);
    }
  }

  // ---------------------------------------------------------------- round robin

  function RoundOwners(n: nat, ids: seq<string>): (s: seq<string>)
    requires ids != []
    ensures |s| == n
  {
    if n == 0 then [] else RoundOwners(n - 1, ids) + [ids[(n - 1) % |ids|]]
  }

  lemma {:induction false} RoundAt(n: nat, ids: seq<string>, p: nat)
    requires ids != [] && p < n
    ensures RoundOwners(n, ids)[p] == ids[p % |ids|]
  {
    if p < n - 1 {
      RoundAt(n - 1, ids, p);
    }
  }

  /** How many of the first n turns fall to the j-th of k. */
  function Turns(n: nat, k: nat, j: nat): int
    requires j < k
  {
    (n + k - 1 - j) / k
  }

  lemma {:induction false} RoundCount(n: nat, ids: seq<string>, j: nat)
    requires NoRepeats(ids) && j < |ids|
    ensures Count(RoundOwners(n, ids), ids[j]) == Turns(n, |ids|, j)
  {
    hide Turns;
    var k := |ids|;
    if n == 0 {
      FirstTurn(k, j);
    } else {
      RoundCount(n - 1, ids, j);
      var i := (n - 1) % k;
      CountJoin(RoundOwners(n - 1, ids), [ids[i]], ids[j]);
      CountOne(ids[i], ids[j]);
      RoundDivides(n, k, j);
      assert ids[i] == ids[j] <==> i == j;
    }
  }

  lemma CountOne(owner: string, member: string)
    ensures Count([owner], member) == if owner == member then 1 else 0
  {
    assert [owner][1..] == [];
  }

  lemma FirstTurn(k: nat, j: nat)
    requires j < k
    ensures Turns(0, k, j) == 0
  {
    QuotientIs(k - 1 - j, k, 0, k - 1 - j);
  }

  lemma RoundDivides(n: nat, k: nat, j: nat)
    requires n > 0 && j < k
    ensures Turns(n, k, j) == Turns(n - 1, k, j) + if (n - 1) % k == j then 1 else 0
  {
    var q, r := (n - 1) / k, (n - 1) % k;
    assert n - 1 == q * k + r;
    if r >= j {
      QuotientIs(n + k - 1 - j, k, q + 1, r - j);
    } else {
      QuotientIs(n + k - 1 - j, k, q, k + r - j);
    }
    if r >= j + 1 {
      QuotientIs(n - 1 + k - 1 - j, k, q + 1, r - j - 1);
    } else {
      QuotientIs(n - 1 + k - 1 - j, k, q, k + r - j - 1);
    }
  }

  lemma {:induction false} TimesAtLeast(k: nat, t: int)
    requires t >= 1
    ensures t * k >= k
  {
    if t > 1 {
      TimesAtLeast(k, t - 1);
      assert t * k == (t - 1) * k + k;
    }
  }

  lemma QuotientIs(a: int, k: nat, q: int, r: int)
    requires k > 0 && a == q * k + r && 0 <= r < k
    ensures a / k == q
  {
    var t := a / k - q;
    assert a / k * k + a % k == a;
    assert t * k == r - a % k;
    if t >= 1 {
      TimesAtLeast(k, t);
    } else if t <= -1 {
      assert -t * k == a % k - r;
      TimesAtLeast(k, -t);
    }
  }

  lemma RoundBalanced(n: nat, ids: seq<string>, a: nat, b: nat)
    requires NoRepeats(ids) && a < |ids| && b < |ids|
    ensures var owners := RoundOwners(n, ids);
            Count(owners, ids[a]) <= Count(owners, ids[b]) + 1
  {
    RoundCount(n, ids, a);
    RoundCount(n, ids, b);
    Close(n + |ids| - 1 - a, n + |ids| - 1 - b, |ids|);
  }

  lemma Close(x: int, y: int, k: nat)
    requires k > 0 && x < y + k
    ensures x / k <= y / k + 1
  {
    var t := x / k - y / k;
    assert x / k * k + x % k == x && y / k * k + y % k == y;
    assert t * k < 2 * k;
    if t >= 2 {
      assert t * k == (t - 1) * k + k;
      TimesAtLeast(k, t - 1);
    }
  }

  // ---------------------------------------------------------------- one topic

  datatype Strategy = Range | RoundRobin

  function Owners(strategy: Strategy, n: nat, ids: seq<string>): seq<string>
    requires ids != []
  {
    match strategy
    case Range => RangeOwners(n, ids, |ids|)
    case RoundRobin => RoundOwners(n, ids)
  }

  lemma {:induction false} RangeMembers(n: nat, ids: seq<string>, i: nat, o: string)
    requires ids != [] && i <= |ids| && o in RangeOwners(n, ids, i)
    ensures o in ids
  {
    if i > 0 && o in RangeOwners(n, ids, i - 1) {
      RangeMembers(n, ids, i - 1, o);
    }
  }

  lemma {:induction false} RoundMembers(n: nat, ids: seq<string>, o: string)
    requires ids != [] && o in RoundOwners(n, ids)
    ensures o in ids
  {
    if n > 0 && o in RoundOwners(n - 1, ids) {
      RoundMembers(n - 1, ids, o);
    }
  }

  /** Every owner is one of the members. */
  lemma OwnersMembers(strategy: Strategy, n: nat, ids: seq<string>, o: string)
    requires ids != [] && o in Owners(strategy, n, ids)
    ensures o in ids
  {
    match strategy
    case Range => RangeMembers(n, ids, |ids|, o);
    case RoundRobin => RoundMembers(n, ids, o);
  }

  lemma OwnersBalanced(strategy: Strategy, n: nat, ids: seq<string>, a: string, b: string)
    requires NoRepeats(ids) && a in ids && b in ids
    ensures Count(Owners(strategy, n, ids), a) <= Count(Owners(strategy, n, ids), b) + 1
  {
    var i :| 0 <= i < |ids| && ids[i] == a;
    var j :| 0 <= j < |ids| && ids[j] == b;
    match strategy
    case Range => RangeBalanced(n, ids, i, j);
    case RoundRobin => RoundBalanced(n, ids, i, j);
  }

  /** The first n partitions of a topic have gone to their owners, and nothing else has changed. */
  ghost predicate Given(before: Plan, after: Plan, topic: string, partitions: seq<int>, owners: seq<string>)
    requires |owners| == |partitions|
  {
    && (forall m :: Share(after, m, topic) == Share(before, m, topic) + Pick(partitions, owners, m))
    && (forall m, t :: t != topic ==> Share(after, m, t) == Share(before, m, t))
  }

  lemma GivenNothing(plan: Plan, topic: string)
    ensures Given(plan, plan, topic, [], [])
  {
    assert forall m :: Share(plan, m, topic) + [] == Share(plan, m, topic);
  }

  lemma GivenMore(before: Plan, plan: Plan, topic: string, ps: seq<int>, os: seq<string>, member: string, more: seq<int>)
    requires |os| == |ps| && Given(before, plan, topic, ps, os)
    ensures Given(before, Add(plan, member, topic, more), topic, ps + more, os + Repeat(member, |more|))
  {
    hide Add, Repeat, Share, Pick;
    var after := Add(plan, member, topic, more);
    forall m
      ensures Share(after, m, topic) == Share(before, m, topic) + Pick(ps + more, os + Repeat(member, |more|), m)
    {
      PickJoin(ps, os, more, Repeat(member, |more|), m);
      RepeatPick(member, more, m);
      AddShare(plan, member, topic, more, m, topic);
      Regroup(Share(before, m, topic), Pick(ps, os, m), if m == member then more else []);
    }
    forall m, t | t != topic
      ensures Share(after, m, t) == Share(before, m, t)
    {
      AddShare(plan, member, topic, more, m, t);
      assert Share(plan, m, t) + [] == Share(plan, m, t);
    }
  }

  lemma Regroup(a: seq<int>, b: seq<int>, c: seq<int>)
    ensures a + b + c == a + (b + c)
  {}

  method AssignRange(plan: Plan, ids: seq<string>, topic: string, partitions: seq<int>) returns (r: Plan)
    requires ids != []
    ensures |RangeOwners(|partitions|, ids, |ids|)| == |partitions|
    ensures Given(plan, r, topic, partitions, RangeOwners(|partitions|, ids, |ids|))
  {
    hide Bound, Given, Share, Repeat;
    var n, k := |partitions|, |ids|;
    r := plan;
    GivenNothing(plan, topic);
    BoundEnds(n, k);
    for i := 0 to k
      invariant 0 <= Bound(n, k, i) <= n && |RangeOwners(n, ids, i)| == Bound(n, k, i)
      invariant Given(plan, r, topic, partitions[..Bound(n, k, i)], RangeOwners(n, ids, i))
    {
      var min, max := Bound(n, k, i), Bound(n, k, i + 1);
      BoundStep(n, k, i);
      BoundsRise(n, k, i + 1);
      RangeLength(n, ids, i + 1);
      GivenMore(plan, r, topic, partitions[..min], RangeOwners(n, ids, i), ids[i], partitions[min..max]);
      assert partitions[..min] + partitions[min..max] == partitions[..max];
      r := Add(r, ids[i], topic, partitions[min..max]);
    }
    assert partitions[..n] == partitions;
  }

  method AssignRoundRobin(plan: Plan, ids: seq<string>, topic: string, partitions: seq<int>) returns (r: Plan)
    requires ids != []
    ensures Given(plan, r, topic, partitions, RoundOwners(|partitions|, ids))
  {
    hide Given, Share;
    r := plan;
    GivenNothing(plan, topic);
    for i := 0 to |partitions|
      invariant Given(plan, r, topic, partitions[..i], RoundOwners(i, ids))
    {
      var member := ids[i % |ids|];
      GivenMore(plan, r, topic, partitions[..i], RoundOwners(i, ids), member, [partitions[i]]);
      assert partitions[..i] + [partitions[i]] == partitions[..i + 1];
      assert Repeat(member, 1) == [member];
      r := Add(r, member, topic, [partitions[i]]);
    }
    assert partitions[..|partitions|] == partitions;
  }

  method Assign(strategy: Strategy, plan: Plan, ids: seq<string>, topic: string, partitions: seq<int>)
    returns (r: Plan)
    requires ids != []
    ensures |Owners(strategy, |partitions|, ids)| == |partitions|
    ensures Given(plan, r, topic, partitions, Owners(strategy, |partitions|, ids))
  {
    hide Given;
    match strategy {
      case Range => r := AssignRange(plan, ids, topic, partitions);
      case RoundRobin => r := AssignRoundRobin(plan, ids, topic, partitions);
    }
  }

  // ---------------------------------------------------------------- all topics

  function ListOf(mbt: map<string, seq<string>>, topic: string): seq<string> {
    if topic in mbt then mbt[topic] else []
  }

  predicate Subscribed(members: map<string, seq<string>>, m: string, t: string) {
    m in members && t in members[m]
  }

  /** The lists hold the members gone through, and the current one for its first n topics. */
  ghost predicate Collected(mbt: map<string, seq<string>>, members: map<string, seq<string>>, done: set<string>,
                            current: string, n: nat)
    requires current in members && n <= |members[current]|
  {
    && (forall t :: t in mbt ==> mbt[t] != [])
    && (forall t, m :: Listed(mbt, members, done, current, n, t, m))
  }

  predicate Listed(mbt: map<string, seq<string>>, members: map<string, seq<string>>, done: set<string>,
                   current: string, n: nat, t: string, m: string)
    requires current in members && n <= |members[current]|
  {
    m in ListOf(mbt, t) <==>
      (m in done && Subscribed(members, m, t)) || (m == current && t in members[current][..n])
  }

  ghost predicate Distinct(members: map<string, seq<string>>) {
    forall m :: m in members ==> NoRepeats(members[m])
  }

  lemma CollectedNext(mbt: map<string, seq<string>>, members: map<string, seq<string>>, done: set<string>,
                      current: string, n: nat, after: map<string, seq<string>>)
    requires current in members && n < |members[current]| && Collected(mbt, members, done, current, n)
    requires after == mbt[members[current][n] := ListOf(mbt, members[current][n]) + [current]]
    ensures Collected(after, members, done, current, n + 1)
  {
    var t0 := members[current][n];
    var topics := members[current];
    assert topics[..n + 1] == topics[..n] + [t0];
    assert |after[t0]| > 0;
    var next := n + 1;
    forall t, m
      ensures Listed(after, members, done, current, next, t, m)
    {
      assert Listed(mbt, members, done, current, n, t, m);
      assert t in topics[..n + 1] <==> t in topics[..n] || t == t0;
      assert m in ListOf(after, t) <==> m in ListOf(mbt, t) || (t == t0 && m == current);
    }
    forall t | t in after
      ensures after[t] != []
    {
      assert t != t0 ==> t in mbt && after[t] == mbt[t];
    }
  }

  lemma CollectedUnique(mbt: map<string, seq<string>>, members: map<string, seq<string>>, done: set<string>,
                        current: string, n: nat, after: map<string, seq<string>>)
    requires current in members && current !in done && n < |members[current]|
    requires Distinct(members) && Collected(mbt, members, done, current, n)
    requires forall t :: NoRepeats(ListOf(mbt, t))
    requires after == mbt[members[current][n] := ListOf(mbt, members[current][n]) + [current]]
    ensures forall t :: NoRepeats(ListOf(after, t))
  {
    var t0 := members[current][n];
    assert Listed(mbt, members, done, current, n, t0, current);
    assert current !in ListOf(mbt, t0);
    forall t
      ensures NoRepeats(ListOf(after, t))
    {
      assert NoRepeats(ListOf(mbt, t));
      if t == t0 {
        assert ListOf(after, t) == ListOf(mbt, t0) + [current];
      }
    }
  }

  method MembersByTopic(members: map<string, seq<string>>) returns (mbt: map<string, seq<string>>)
    ensures forall t :: t in mbt ==> mbt[t] != []
    ensures forall t, m :: m in ListOf(mbt, t) <==> Subscribed(members, m, t)
    ensures Distinct(members) ==> forall t :: NoRepeats(ListOf(mbt, t))
  {
    mbt := map[];
    var todo := members.Keys;
    ghost var done: set<string> := {};
    while todo != {}
      invariant todo <= members.Keys && done == members.Keys - todo
      invariant forall t :: t in mbt ==> mbt[t] != []
      invariant forall t, m :: m in ListOf(mbt, t) <==> m in done && Subscribed(members, m, t)
      invariant Distinct(members) ==> forall t :: NoRepeats(ListOf(mbt, t))
      decreases |todo|
    {
      var member :| member in todo;
      var topics := members[member];
      mbt := AddMember(mbt, members, done, member);
      assert topics[..|topics|] == topics;
      forall t, m
        ensures m in ListOf(mbt, t) <==> m in done + {member} && Subscribed(members, m, t)
      {
        assert Listed(mbt, members, done, member, |topics|, t, m);
      }
      todo := todo - {member};
      done := done + {member};
    }
  }

  method AddMember(mbt: map<string, seq<string>>, members: map<string, seq<string>>, ghost done: set<string>,
                   member: string) returns (r: map<string, seq<string>>)
    requires member in members && member !in done
    requires forall t :: t in mbt ==> mbt[t] != []
    requires forall t, m :: m in ListOf(mbt, t) <==> m in done && Subscribed(members, m, t)
    requires Distinct(members) ==> forall t :: NoRepeats(ListOf(mbt, t))
    ensures Collected(r, members, done, member, |members[member]|)
    ensures Distinct(members) ==> forall t :: NoRepeats(ListOf(r, t))
  {
    hide ListOf, Subscribed, NoRepeats, Distinct;
    r := mbt;
    var topics := members[member];
    assert forall t, m :: Listed(r, members, done, member, 0, t, m);
    for i := 0 to |topics|
      invariant Collected(r, members, done, member, i)
      invariant Distinct(members) ==> forall t :: NoRepeats(ListOf(r, t))
    {
      var after := r[topics[i] := ListOf(r, topics[i]) + [member]];
      CollectedNext(r, members, done, member, i, after);
      if Distinct(members) {
        CollectedUnique(r, members, done, member, i, after);
      }
      r := after;
    }
  }

  // ---------------------------------------------------------------- the plan

  type Hash = (string, string) -> nat

  function InsertByHash(hash: Hash, topic: string, id: string, ids: seq<string>): seq<string> {
    if ids == [] || hash(topic, id) < hash(topic, ids[0]) then [id] + ids
    else [ids[0]] + InsertByHash(hash, topic, id, ids[1..])
  }

  function SortByHash(hash: Hash, topic: string, ids: seq<string>): seq<string> {
    if ids == [] then [] else InsertByHash(hash, topic, ids[0], SortByHash(hash, topic, ids[1..]))
  }

  lemma {:induction false} InsertKeeps(hash: Hash, topic: string, id: string, ids: seq<string>)
    ensures var r := InsertByHash(hash, topic, id, ids);
            && r != [] && (forall x :: x in r <==> x == id || x in ids)
            && (NoRepeats(ids) && id !in ids ==> NoRepeats(r))
  {
    if ids != [] && hash(topic, id) >= hash(topic, ids[0]) {
      InsertKeeps(hash, topic, id, ids[1..]);
      assert forall x :: x in ids <==> x == ids[0] || x in ids[1..];
      var rest := InsertByHash(hash, topic, id, ids[1..]);
      if NoRepeats(ids) && id !in ids {
        assert ids[0] !in rest;
      }
    }
  }

  ghost predicate HashSorted(hash: Hash, topic: string, ids: seq<string>) {
    forall i, j :: 0 <= i < j < |ids| ==> hash(topic, ids[i]) <= hash(topic, ids[j])
  }

  lemma {:induction false} InsertSorted(hash: Hash, topic: string, id: string, ids: seq<string>)
    requires HashSorted(hash, topic, ids)
    ensures HashSorted(hash, topic, InsertByHash(hash, topic, id, ids))
  {
    if ids != [] && hash(topic, id) >= hash(topic, ids[0]) {
      InsertSorted(hash, topic, id, ids[1..]);
      InsertKeeps(hash, topic, id, ids[1..]);
      var rest := InsertByHash(hash, topic, id, ids[1..]);
      forall j | 0 <= j < |rest|
        ensures hash(topic, ids[0]) <= hash(topic, rest[j])
      {
        assert rest[j] in rest;
      }
    }
  }

  /** Members are put in the order of their hashes. */
  lemma {:induction false} SortSorted(hash: Hash, topic: string, ids: seq<string>)
    ensures HashSorted(hash, topic, SortByHash(hash, topic, ids))
  {
    if ids != [] {
      SortSorted(hash, topic, ids[1..]);
      InsertSorted(hash, topic, ids[0], SortByHash(hash, topic, ids[1..]));
    }
  }

  /** Sorting keeps the members. */
  lemma {:induction false} SortKeeps(hash: Hash, topic: string, ids: seq<string>)
    ensures var r := SortByHash(hash, topic, ids);
            && (r == [] <==> ids == []) && (forall x :: x in r <==> x in ids) && (NoRepeats(ids) ==> NoRepeats(r))
  {
    if ids != [] {
      SortKeeps(hash, topic, ids[1..]);
      InsertKeeps(hash, topic, ids[0], SortByHash(hash, topic, ids[1..]));
      assert forall x :: x in ids <==> x == ids[0] || x in ids[1..];
    }
  }

  function PartitionsOf(topics: map<string, seq<int>>, topic: string): seq<int> {
    if topic in topics then topics[topic] else []
  }

  /** The plan for a set of topics: every position has one owner, who gets the partition there. */
  ghost predicate Planned(plan: Plan, topics: map<string, seq<int>>, owners: map<string, seq<string>>) {
    && (forall t :: t in owners ==> |owners[t]| == |PartitionsOf(topics, t)|)
    && (forall t, m :: Share(plan, m, t) ==
          if t in owners then Pick(PartitionsOf(topics, t), owners[t], m) else [])
  }

  /** The partitions of a topic are dealt out to the owners of their positions, who have subscribed to it. */
  ghost predicate DealtOut(plan: Plan, members: map<string, seq<string>>, topics: map<string, seq<int>>, t: string,
                           os: seq<string>) {
    && |os| == |PartitionsOf(topics, t)|
    && (forall o :: o in os ==> Subscribed(members, o, t))
    && (forall m :: Share(plan, m, t) == Pick(PartitionsOf(topics, t), os, m))
  }

  ghost predicate Wanted(members: map<string, seq<string>>, t: string) {
    exists m :: Subscribed(members, m, t)
  }

  /** The members who want the topic, in the order of their hashes. */
  ghost predicate LinedUp(members: map<string, seq<string>>, hash: Hash, t: string, ids: seq<string>) {
    ids != [] && (forall m :: m in ids <==> Subscribed(members, m, t)) && HashSorted(hash, t, ids)
  }

  /**
    Of a topic that somebody wants every partition is dealt out once, by the strategy and in the order of
    hashes, and of any other none.
   */
  ghost predicate Split(strategy: Strategy, hash: Hash, plan: Plan, members: map<string, seq<string>>,
                        topics: map<string, seq<int>>, t: string) {
    if Wanted(members, t) then
      exists ids :: LinedUp(members, hash, t, ids)
                    && DealtOut(plan, members, topics, t, Owners(strategy, |PartitionsOf(topics, t)|, ids))
    else forall m :: Share(plan, m, t) == []
  }

  lemma {:induction false} PickedAt(ps: seq<int>, os: seq<string>, m: string, p: int)
    requires |os| == |ps|
    ensures p in Pick(ps, os, m) <==> exists i :: 0 <= i < |ps| && ps[i] == p && os[i] == m
  {
    if ps != [] {
      PickedAt(ps[1..], os[1..], m, p);
      var head := if os[0] == m then [ps[0]] else [];
      assert p in Pick(ps, os, m) <==> p in head || p in Pick(ps[1..], os[1..], m);
      if i :| 0 <= i < |ps| && ps[i] == p && os[i] == m {
        assert i > 0 ==> ps[1..][i - 1] == p && os[1..][i - 1] == m;
      }
      if i :| 0 <= i < |ps[1..]| && ps[1..][i] == p && os[1..][i] == m {
        assert ps[i + 1] == p && os[i + 1] == m;
      }
    }
  }

  /** In a plan that splits a topic without repeated partitions, each partition has one owner, who subscribed. */
  lemma OneOwner(strategy: Strategy, hash: Hash, plan: Plan, members: map<string, seq<string>>, topics: map<string, seq<int>>, t: string, p: int)
    requires Split(strategy, hash, plan, members, topics, t) && Wanted(members, t) && p in PartitionsOf(topics, t)
    requires var ps := PartitionsOf(topics, t);
             forall i, j :: 0 <= i < j < |ps| ==> ps[i] != ps[j]
    ensures exists m :: Subscribed(members, m, t) && forall x :: p in Share(plan, x, t) <==> x == m
  {
    hide Share, Pick, PartitionsOf, Subscribed, Wanted, Owners, HashSorted;
    var ps := PartitionsOf(topics, t);
    var ids :| LinedUp(members, hash, t, ids) && DealtOut(plan, members, topics, t, Owners(strategy, |ps|, ids));
    var os := Owners(strategy, |ps|, ids);
    var i :| 0 <= i < |ps| && ps[i] == p;
    forall x
      ensures p in Share(plan, x, t) <==> x == os[i]
    {
      PickedAt(ps, os, x, p);
    }
    assert Subscribed(members, os[i], t);
  }

  /**
    Every partition of every subscribed topic goes to exactly one member, and that member has subscribed
    to the topic. If no member lists a topic twice, the shares of a topic differ by at most one.
   */
  method MakePlan(strategy: Strategy, hash: Hash, members: map<string, seq<string>>, topics: map<string, seq<int>>)
    returns (plan: Plan)
    ensures forall t :: Split(strategy, hash, plan, members, topics, t)
    ensures Distinct(members) ==>
            forall t, a, b :: Subscribed(members, a, t) && Subscribed(members, b, t) ==>
              |Share(plan, a, t)| <= |Share(plan, b, t)| + 1
  {
    hide Share, Pick, Count, Owners, SortByHash, NoRepeats, Given, Split, Subscribed, Distinct, ListOf, Ready;
    var mbt := MembersByTopic(members);
    ghost var owners: map<string, seq<string>> := map[];
    ghost var lines: map<string, seq<string>> := map[];
    plan := map[];
    NothingReady(strategy, hash, members, mbt, topics);
    var todo := mbt.Keys;
    while todo != {}
      invariant todo <= mbt.Keys && owners.Keys == mbt.Keys - todo
      invariant Ready(strategy, hash, members, mbt, topics, plan, owners, lines)
      decreases |todo|
    {
      var t :| t in todo;
      SortKeeps(hash, t, mbt[t]);
      var ids := SortByHash(hash, t, mbt[t]);
      var ps := PartitionsOf(topics, t);
      ghost var before := plan;
      plan := Assign(strategy, plan, ids, t, ps);
      ReadyNext(strategy, hash, members, mbt, topics, before, plan, owners, lines, t);
      owners := owners[t := Owners(strategy, |ps|, ids)];
      lines := lines[t := ids];
      todo := todo - {t};
    }
    PlanSplits(strategy, hash, plan, members, topics, mbt, owners, lines);
    if Distinct(members) {
      PlanEven(strategy, hash, plan, members, topics, mbt, owners, lines);
    }
  }

  /** The topics gone through are dealt out as the strategy says, fairly, and nothing else is assigned. */
  ghost predicate Ready(strategy: Strategy, hash: Hash, members: map<string, seq<string>>,
                        mbt: map<string, seq<string>>, topics: map<string, seq<int>>, plan: Plan,
                        owners: map<string, seq<string>>, lines: map<string, seq<string>>) {
    && lines.Keys == owners.Keys && Planned(plan, topics, owners)
    && (forall t :: t in owners ==> Fair(members, mbt, t, owners[t]))
    && (forall t :: t in owners ==> Dealt(strategy, hash, mbt, topics, t, lines[t], owners[t]))
  }

  lemma NothingReady(strategy: Strategy, hash: Hash, members: map<string, seq<string>>,
                     mbt: map<string, seq<string>>, topics: map<string, seq<int>>)
    ensures Ready(strategy, hash, members, mbt, topics, map[], map[], map[])
  {
    hide Share;
    EmptyPlan(topics);
  }

  lemma ReadyNext(strategy: Strategy, hash: Hash, members: map<string, seq<string>>, mbt: map<string, seq<string>>,
                  topics: map<string, seq<int>>, before: Plan, plan: Plan, owners: map<string, seq<string>>,
                  lines: map<string, seq<string>>, t: string)
    requires Ready(strategy, hash, members, mbt, topics, before, owners, lines)
    requires t in mbt && mbt[t] != [] && t !in owners && SortByHash(hash, t, mbt[t]) != []
    requires var ps, ids := PartitionsOf(topics, t), SortByHash(hash, t, mbt[t]);
             && |Owners(strategy, |ps|, ids)| == |ps|
             && Given(before, plan, t, ps, Owners(strategy, |ps|, ids))
    ensures var ids := SortByHash(hash, t, mbt[t]);
            Ready(strategy, hash, members, mbt, topics, plan,
                  owners[t := Owners(strategy, |PartitionsOf(topics, t)|, ids)], lines[t := ids])
  {
    hide Share, Pick, Count, Owners, SortByHash, NoRepeats, Given, Planned, Fair, Dealt;
    var ps, ids := PartitionsOf(topics, t), SortByHash(hash, t, mbt[t]);
    SortKeeps(hash, t, mbt[t]);
    DealtBy(strategy, hash, mbt, topics, t);
    FairOwners(strategy, |ps|, ids, members, mbt, t);
    PlannedNext(before, plan, topics, owners, t, Owners(strategy, |ps|, ids));
  }

  /** The owners are those that the strategy makes of the members in line. */
  ghost predicate Dealt(strategy: Strategy, hash: Hash, mbt: map<string, seq<string>>, topics: map<string, seq<int>>,
                        t: string, ids: seq<string>, os: seq<string>) {
    && ids != [] && (forall m :: m in ids <==> m in ListOf(mbt, t)) && HashSorted(hash, t, ids)
    && os == Owners(strategy, |PartitionsOf(topics, t)|, ids)
  }

  lemma DealtBy(strategy: Strategy, hash: Hash, mbt: map<string, seq<string>>, topics: map<string, seq<int>>, t: string)
    requires t in mbt && mbt[t] != []
    ensures var ids := SortByHash(hash, t, mbt[t]);
            ids != [] && Dealt(strategy, hash, mbt, topics, t, ids, Owners(strategy, |PartitionsOf(topics, t)|, ids))
  {
    hide SortByHash, Owners;
    SortKeeps(hash, t, mbt[t]);
    SortSorted(hash, t, mbt[t]);
  }

  lemma PlanSplits(strategy: Strategy, hash: Hash, plan: Plan, members: map<string, seq<string>>,
                   topics: map<string, seq<int>>, mbt: map<string, seq<string>>, owners: map<string, seq<string>>,
                   lines: map<string, seq<string>>)
    requires Ready(strategy, hash, members, mbt, topics, plan, owners, lines) && owners.Keys == mbt.Keys
    requires forall t :: t in mbt ==> mbt[t] != []
    requires forall t, m :: m in ListOf(mbt, t) <==> Subscribed(members, m, t)
    ensures forall t :: Split(strategy, hash, plan, members, topics, t)
  {
    hide Share, Pick, Count, Subscribed, PartitionsOf, Owners, HashSorted;
    forall t
      ensures Split(strategy, hash, plan, members, topics, t)
    {
      if t in mbt {
        assert mbt[t][0] in ListOf(mbt, t);
        assert DealtOut(plan, members, topics, t, owners[t]);
        assert Dealt(strategy, hash, mbt, topics, t, lines[t], owners[t]);
        assert LinedUp(members, hash, t, lines[t]);
      } else {
        forall m
          ensures !Subscribed(members, m, t)
        {
          assert m !in ListOf(mbt, t);
        }
      }
    }
  }

  lemma PlanEven(strategy: Strategy, hash: Hash, plan: Plan, members: map<string, seq<string>>,
                 topics: map<string, seq<int>>, mbt: map<string, seq<string>>, owners: map<string, seq<string>>,
                 lines: map<string, seq<string>>)
    requires Ready(strategy, hash, members, mbt, topics, plan, owners, lines) && owners.Keys == mbt.Keys
    requires forall t, m :: m in ListOf(mbt, t) <==> Subscribed(members, m, t)
    requires forall t :: NoRepeats(ListOf(mbt, t))
    ensures forall t, a, b :: Subscribed(members, a, t) && Subscribed(members, b, t) ==>
              |Share(plan, a, t)| <= |Share(plan, b, t)| + 1
  {
    hide Share, Pick, Count, Subscribed, PartitionsOf, NoRepeats, Dealt;
    forall t, a, b | Subscribed(members, a, t) && Subscribed(members, b, t)
      ensures |Share(plan, a, t)| <= |Share(plan, b, t)| + 1
    {
      assert a in ListOf(mbt, t) && b in ListOf(mbt, t);
      assert t in owners && Fair(members, mbt, t, owners[t]);
      PickSize(PartitionsOf(topics, t), owners[t], a);
      PickSize(PartitionsOf(topics, t), owners[t], b);
    }
  }

  /** The owners of a topic are subscribed, and their shares are even. */
  ghost predicate Fair(members: map<string, seq<string>>, mbt: map<string, seq<string>>, t: string, os: seq<string>) {
    && (forall o :: o in os ==> o in ListOf(mbt, t))
    && (NoRepeats(ListOf(mbt, t)) ==>
          forall a, b :: a in ListOf(mbt, t) && b in ListOf(mbt, t) ==> Count(os, a) <= Count(os, b) + 1)
  }

  lemma FairOwners(strategy: Strategy, n: nat, ids: seq<string>, members: map<string, seq<string>>,
                   mbt: map<string, seq<string>>, t: string)
    requires ids != [] && t in mbt && forall x :: x in ids <==> x in mbt[t]
    requires NoRepeats(mbt[t]) ==> NoRepeats(ids)
    ensures Fair(members, mbt, t, Owners(strategy, n, ids))
  {
    hide Owners, Count, NoRepeats;
    var os := Owners(strategy, n, ids);
    forall o | o in os
      ensures o in ListOf(mbt, t)
    {
      OwnersMembers(strategy, n, ids, o);
    }
    if NoRepeats(mbt[t]) {
      forall a, b | a in ListOf(mbt, t) && b in ListOf(mbt, t)
        ensures Count(os, a) <= Count(os, b) + 1
      {
        OwnersBalanced(strategy, n, ids, a, b);
      }
    }
  }

  lemma EmptyPlan(topics: map<string, seq<int>>)
    ensures Planned(map[], topics, map[])
  {}

  lemma PlannedNext(before: Plan, after: Plan, topics: map<string, seq<int>>, owners: map<string, seq<string>>,
                    t: string, os: seq<string>)
    requires t !in owners && Planned(before, topics, owners)
    requires |os| == |PartitionsOf(topics, t)| && Given(before, after, t, PartitionsOf(topics, t), os)
    ensures Planned(after, topics, owners[t := os])
  {
    hide Share, Pick;
    forall u, m
      ensures Share(after, m, u) ==
              if u in owners[t := os] then Pick(PartitionsOf(topics, u), owners[t := os][u], m) else []
    {
      if u == t {
        assert Share(before, m, t) == [];
        assert [] + Pick(PartitionsOf(topics, t), os, m) == Pick(PartitionsOf(topics, t), os, m);
      }
    }
  }
}
