/** Where a scan gets from one position of the query to another, and what stands at a position. */
module FingerprintReach {
  import opened Fingerprint
  import opened FingerprintLiterals

  lemma {:induction false} ReachJoin(q: string, st: Scan, qi: nat, m: nat, n: nat, replaceNumbers: bool)
    requires qi <= m <= n <= |q| && Reach(q, st, qi, m, replaceNumbers).Continue?
    ensures Reach(q, st, qi, n, replaceNumbers) ==
            Reach(q, Reach(q, st, qi, m, replaceNumbers).st, m, n, replaceNumbers)
    decreases m - qi
  {
    hide Step;
    if qi < m {
      ReachJoin(q, Step(q, st, qi, replaceNumbers).st, qi + 1, m, n, replaceNumbers);
    }
  }

  lemma ReachStep(q: string, st: Scan, qi: nat, n: nat, t: Scan, u: Scan, replaceNumbers: bool)
    requires qi <= n < |q| && Reach(q, st, qi, n, replaceNumbers) == Continue(t)
    requires Step(q, t, n, replaceNumbers) == Continue(u)
    ensures Reach(q, st, qi, n + 1, replaceNumbers) == Continue(u)
  {
    hide Step;
    ReachJoin(q, st, qi, n, n + 1, replaceNumbers);
    assert Reach(q, u, n + 1, n + 1, replaceNumbers) == Continue(u);
  }

  lemma {:induction false} ReachLast(q: string, st: Scan, qi: nat, n: nat, replaceNumbers: bool)
    requires qi <= n < |q| && Reach(q, st, qi, n + 1, replaceNumbers).Continue?
    ensures Reach(q, st, qi, n, replaceNumbers).Continue?
    ensures Reach(q, st, qi, n + 1, replaceNumbers) ==
            Step(q, Reach(q, st, qi, n, replaceNumbers).st, n, replaceNumbers)
    decreases n - qi
  {
    hide Step;
    if qi < n {
      ReachLast(q, Step(q, st, qi, replaceNumbers).st, qi + 1, n, replaceNumbers);
    }
  }

  lemma NowAt(q: string, st: Scan, qi: nat, replaceNumbers: bool)
    requires qi <= |q|
    ensures Reach(q, st, qi, qi, replaceNumbers) == Continue(st)
  {}

  predicate Stands(q: string, qi: nat, w: string) {
    qi + |w| <= |q| && q[qi..qi + |w|] == w
  }

  lemma StandsAt(q: string, qi: nat, w: string)
    requires Stands(q, qi, w)
    ensures forall i :: 0 <= i < |w| ==> q[qi + i] == w[i]
  {
    forall i | 0 <= i < |w|
      ensures q[qi + i] == w[i]
    {
      assert q[qi..qi + |w|][i] == q[qi + i];
    }
  }

  lemma StandsApart(q: string, qi: nat, w: string, w2: string)
    requires Stands(q, qi, w + w2)
    ensures Stands(q, qi, w) && Stands(q, qi + |w|, w2)
  {
    assert q[qi..qi + |w|] == q[qi..qi + |w + w2|][..|w|];
    assert q[qi + |w|..qi + |w| + |w2|] == q[qi..qi + |w + w2|][|w|..];
  }

  lemma StandsWithin(q: string, qi: nat, w: string)
    requires Stands(q, qi, w)
    ensures qi + |w| <= |q|
  {}

  lemma AtTheEnd(q: string, t: Scan, replaceNumbers: bool)
    ensures Run(q, t, |q|, replaceNumbers) == Finish(t)
  {}
}
