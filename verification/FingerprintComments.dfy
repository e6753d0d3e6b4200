/**
  Comments. The scan writes nothing while it is in a comment. But the comment stays within the stretch that
  is copied next, unless the first character after it begins a new stretch: exactly then two queries that
  differ only inside a comment are sure to have the same fingerprint.
 */
module FingerprintComments {
  import opened Fingerprint
  import opened FingerprintLiterals
  import opened FingerprintReach
  import N = FingerprintNumbers

  /** Comments between slashes and stars, and those from a hash sign or two dashes to the end of the line. */
  datatype Kind = Block | Hash | Dashes {
    function Opener(): (t: string)
      ensures 1 <= |t| <= 3
    {
      match this case Block => "/*" case Hash => "#" case Dashes => "-- "
    }

    function Closer(): (t: string)
      ensures 1 <= |t| <= 2
    {
      match this case Block => "*/" case Hash => "\n" case Dashes => "\n"
    }

    /** The body does not end the comment, and is not that of a versioned comment. */
    predicate Holds(body: string) {
      match this
      case Block =>
        && (body != "" ==> body[0] != '!')
        && (forall i :: 1 <= i < |body| ==> !(body[i - 1] == '*' && body[i] == '/'))
      case Hash => '\n' !in body
      case Dashes => '\n' !in body
    }
  }

  // ---------------------------------------------------------------- inside a comment

  /** The scan just behind the opener. */
  predicate InComment(k: Kind, st: Scan) {
    match k
    case Block => st.s == MlcOrMySQLCode && st.pr == '*'
    case Hash => st.s == InOLC && st.pr == '#'
    case Dashes => st.s == InOLC && st.pr == ' '
  }

  lemma {:induction false} BlockRead(q: string, st: Scan, qi: nat, n: nat, replaceNumbers: bool)
    requires 0 < qi <= n <= |q| && st.s == InMLC && st.pr == q[qi - 1]
    requires forall i :: qi <= i < n ==> !(q[i - 1] == '*' && q[i] == '/')
    ensures Reach(q, st, qi, n, replaceNumbers) == Continue(st.(pr := q[n - 1]))
    decreases n - qi
  {
    if qi < n {
      hide Change, Copy;
      var t := st.(pr := q[qi]);
      assert Step(q, st, qi, replaceNumbers) == Continue(t);
      BlockRead(q, t, qi + 1, n, replaceNumbers);
    }
  }

  lemma {:induction false} LineRead(q: string, st: Scan, qi: nat, n: nat, replaceNumbers: bool)
    requires qi <= n <= |q| && st.s == InOLC && forall i :: qi <= i < n ==> q[i] != '\n'
    ensures Reach(q, st, qi, n, replaceNumbers) == Continue(st)
    decreases n - qi
  {
    if qi < n {
      hide Change, Copy;
      assert Step(q, st, qi, replaceNumbers) == Continue(st);
      LineRead(q, st, qi + 1, n, replaceNumbers);
    }
  }

  /** A comment changes nothing but the state, which is as at the beginning of a query. */
  lemma CommentCrossed(q: string, st: Scan, p: nat, k: Kind, body: string, replaceNumbers: bool)
    requires 0 < p && InComment(k, st) && k.Holds(body) && Stands(q, p, body + k.Closer())
    ensures var o := p + |body| + |k.Closer()|;
            Reach(q, st, p, o, replaceNumbers) == Continue(st.(s := Unknown))
  {
    hide Reach, Step, Stands;
    StandsApart(q, p, body, k.Closer());
    StandsAt(q, p, body);
    StandsAt(q, p + |body|, k.Closer());
    StandsWithin(q, p, body + k.Closer());
    var n := p + |body|;
    assert q[n] == q[n + 0] == k.Closer()[0];
    if k.Block? {
      assert q[n + 1] == k.Closer()[1] == '/';
      BlockCrossed(q, st, p, body, replaceNumbers);
    } else {
      assert forall i :: p <= i < n ==> q[i] != '\n' by {
        forall i | p <= i < n
          ensures q[i] != '\n'
        {
          assert q[i] == q[p + (i - p)] == body[i - p];
        }
      }
      LineRead(q, st, p, n, replaceNumbers);
      LineEnds(q, st, n, replaceNumbers);
      ReachStep(q, st, p, n, st, st.(s := Unknown), replaceNumbers);
    }
  }

  lemma LineEnds(q: string, st: Scan, n: nat, replaceNumbers: bool)
    requires n < |q| && q[n] == '\n' && st.s == InOLC
    ensures Step(q, st, n, replaceNumbers) == Continue(st.(s := Unknown))
  {
    hide Change, Copy;
  }

  lemma BlockCrossed(q: string, st: Scan, p: nat, body: string, replaceNumbers: bool)
    requires 0 < p && InComment(Block, st) && Block.Holds(body) && p + |body| + 2 <= |q|
    requires (forall i :: 0 <= i < |body| ==> q[p + i] == body[i]) && q[p + |body|] == '*' && q[p + |body| + 1] == '/'
    ensures Reach(q, st, p, p + |body| + 2, replaceNumbers) == Continue(st.(s := Unknown))
  {
    hide Reach, Step;
    var n := p + |body| + 1;
    assert q[p] == q[p + 0] != '!';
    var t := st.(s := InMLC, pr := q[p]);
    BlockBegins(q, st, p, replaceNumbers);
    NowAt(q, st, p, replaceNumbers);
    ReachStep(q, st, p, p, st, t, replaceNumbers);
    assert forall i :: p + 1 <= i < n ==> !(q[i - 1] == '*' && q[i] == '/') by {
      forall i | p + 1 <= i < n
        ensures !(q[i - 1] == '*' && q[i] == '/')
      {
        assert q[i - 1] == q[p + (i - 1 - p)] == body[i - 1 - p];
        assert i < n - 1 ==> q[i] == q[p + (i - p)] == body[i - p];
      }
    }
    BlockRead(q, t, p + 1, n, replaceNumbers);
    ReachJoin(q, st, p, p + 1, n, replaceNumbers);
    BlockEnds(q, t.(pr := '*'), n, replaceNumbers);
    ReachStep(q, st, p, n, t.(pr := '*'), st.(s := Unknown), replaceNumbers);
  }

  lemma BlockBegins(q: string, st: Scan, p: nat, replaceNumbers: bool)
    requires p < |q| && q[p] != '!' && st.s == MlcOrMySQLCode
    ensures Step(q, st, p, replaceNumbers) == Continue(st.(s := InMLC, pr := q[p]))
  {
    hide Change, Copy;
  }

  lemma BlockEnds(q: string, st: Scan, n: nat, replaceNumbers: bool)
    requires n < |q| && q[n] == '/' && st.s == InMLC && st.pr == '*'
    ensures Step(q, st, n, replaceNumbers) == Continue(st.(s := Unknown))
  {
    hide Change, Copy;
  }

  // ---------------------------------------------------------------- what follows the comment

  /** A character after which what is copied next begins with this character. */
  predicate Restarts(k: Kind, r: char) {
    || (k.Dashes? && IsSpace(r))
    || (&& !IsDigit(r) && !IsSpace(r) && r != '\'' && r != '"' && r != '`' && r != '(' && r != '/' && r != '+'
        && r != '-' && r != '.' && r != '#')
  }

  lemma RestartsThere(q: string, st: Scan, o: nat, k: Kind, replaceNumbers: bool)
    requires o < |q| && st.s == Unknown && Restarts(k, q[o]) && (k.Dashes? ==> st.pr == ' ')
    ensures Step(q, st, o, replaceNumbers) == Step(q, st.(cpFrom := o), o, replaceNumbers)
  {
    hide Change, Copy;
    if !IsSpace(q[o]) {
      RestartChange(q, st, o, k, replaceNumbers);
    }
  }

  lemma RestartChange(q: string, st: Scan, o: nat, k: Kind, replaceNumbers: bool)
    requires o < |q| && st.s == Unknown && Restarts(k, q[o]) && !IsSpace(q[o])
    ensures Change(q, st, o, replaceNumbers, |q|) == Change(q, st.(cpFrom := o), o, replaceNumbers, |q|)
  {
    hide OnDigit, OnSpace, OnQuote, OnParen;
  }

  function Commented(before: string, k: Kind, body: string, after: string): string {
    before + k.Opener() + body + k.Closer() + after
  }

  /** In the scan of the query, the opener after `before` opens a comment. */
  predicate OpensComment(before: string, k: Kind, body: string, after: string, replaceNumbers: bool) {
    var q := Commented(before, k, body, after) + " ";
    var n := Reach(q, START, 0, |before + k.Opener()|, replaceNumbers);
    n.Continue? && InComment(k, n.st)
  }

  lemma CommentedParts(before: string, k: Kind, body: string, after: string)
    ensures var q := Commented(before, k, body, after) + " ";
            var p := |before + k.Opener()|;
            var o := p + |body| + |k.Closer()|;
            && |q| == o + |after| + 1 && q[..p] == before + k.Opener() && Stands(q, p, body + k.Closer())
            && q[o..] == after + " " && q[o] == (after + " ")[0] && q[p - 1] == k.Opener()[|k.Opener()| - 1]
  {
    var q := Commented(before, k, body, after) + " ";
    var p := |before + k.Opener()|;
    assert q == before + k.Opener() + (body + k.Closer()) + (after + " ");
    assert q[p..p + |body + k.Closer()|] == body + k.Closer();
  }

  /** The state just behind the opener. */
  lemma CommentOpened(before: string, k: Kind, body: string, after: string, replaceNumbers: bool) returns (st: Scan)
    requires OpensComment(before, k, body, after, replaceNumbers)
    requires Complete(FingerprintOf(Commented(before, k, body, after), replaceNumbers))
    ensures var q := Commented(before, k, body, after) + " ";
            var p := |before + k.Opener()|;
            && Reach(q, START, 0, p, replaceNumbers) == Continue(st)
            && Run(q, st, p, replaceNumbers) == Run(q, START, 0, replaceNumbers)
            && Sound(st, p) && st.cpTo < p
    ensures InComment(k, st) && st.over == 0
  {
    hide Run, Sound, Reach, Step, InComment;
    var q := Commented(before, k, body, after) + " ";
    var p := |before + k.Opener()|;
    CommentedParts(before, k, body, after);
    st := Reach(q, START, 0, p, replaceNumbers).st;
    StartSound();
    RunReach(q, START, 0, p, replaceNumbers);
    RunOver(q, st, p, replaceNumbers);
    ReachLast(q, START, 0, p - 1, replaceNumbers);
    RunReach(q, START, 0, p - 1, replaceNumbers);
    OpenerStep(q, Reach(q, START, 0, p - 1, replaceNumbers).st, p - 1, replaceNumbers);
    LastOfOpener(k);
  }

  lemma LastOfOpener(k: Kind)
    ensures k.Opener()[|k.Opener()| - 1] != '`'
  {}

  /** Only a backtick marks for copying what includes itself. */
  lemma OpenerStep(q: string, st: Scan, qi: nat, replaceNumbers: bool)
    requires qi < |q| && Sound(st, qi) && q[qi] != '`'
    ensures var n := Step(q, st, qi, replaceNumbers); n.Continue? ==> n.st.cpTo <= qi
  {
    hide Change, Copy, SkipValues, Emit, IsSpace, InNumeral, EndsNumeral, IsDigit;
    SkipSound(st, qi, q[qi], |q|);
    if st.s == InValues {
      ValuesSound(st, qi, q[qi], |q|);
    }
    var a := Skip(st, qi, q[qi], |q|);
    if a.Go? {
      ChangeSound(q, a.st, qi, replaceNumbers, |q|);
      var b := Change(q, a.st, qi, replaceNumbers, |q|);
      if b.Go? {
        CopySound(q, b.st, |q|);
      }
    }
  }

  lemma PastAlike(k: Kind, st: Scan, p: nat, o1: nat, o2: nat)
    requires 0 < p < o1 && p < o2 && (o1 == o2 || (2 < o1 && 2 < o2)) && InComment(k, st) && Sound(st, p) && st.cpTo < p
    requires st.over == 0
    ensures var fr := Frame(p, o1, o2);
            var a, b := st.(s := Unknown, cpFrom := o1), st.(s := Unknown, cpFrom := o2);
            fr.Ok() && Alike(fr, a, b) && Near(fr, a, 0) && Sound(a, o1) && Sound(b, o2)
  {}

  /** Nothing follows the comment, or a character that begins a new stretch. */
  predicate CleanAfter(k: Kind, after: string) {
    after == "" || Restarts(k, after[0])
  }

  /** Only a hash sign that begins the query needs a further word: its comment may end too early. */
  predicate Late(before: string, k: Kind) {
    k.Hash? ==> before != ""
  }

  // ---------------------------------------------------------------- nothing is left to copy

  /** What is marked for copying is copied in the same round, except behind a closing backtick. */
  predicate Settled(st: Scan) {
    st.cpTo <= st.cpFrom || st.s == InWord
  }

  lemma SkipSettled(st: Scan, qi: nat, r: char, cap: nat)
    requires Sound(st, qi) && Settled(st)
    ensures var n := Skip(st, qi, r, cap); n.Continue? ==> Settled(n.st)
  {
    hide IsSpace, InNumeral, EndsNumeral, IsDigit, Emit, SkipValues;
    if st.s == InValues {
      ValuesSettled(st, qi, r, cap);
    }
  }

  lemma ValuesSettled(st: Scan, qi: nat, r: char, cap: nat)
    requires Sound(st, qi) && st.cpTo <= st.cpFrom
    ensures var n := SkipValues(st, qi, r, cap); n.Continue? ==> n.st.cpTo <= n.st.cpFrom
  {
    hide IsSpace, EmitAll;
  }

  lemma CopySettled(q: string, st: Scan, cap: nat)
    ensures var n := Copy(q, st, cap); n.Go? ==> n.st.cpTo <= n.st.cpFrom
  {
    hide IsList, ToLower, EmitAll, EmitIfRoom;
  }

  lemma StepSettled(q: string, st: Scan, qi: nat, replaceNumbers: bool)
    requires qi < |q| && Sound(st, qi) && Settled(st)
    ensures var n := Step(q, st, qi, replaceNumbers); n.Continue? ==> Settled(n.st)
  {
    hide Skip, Change, Copy, Sound;
    SkipSettled(st, qi, q[qi], |q|);
    var a := Skip(st, qi, q[qi], |q|);
    if a.Go? {
      SkipSound(st, qi, q[qi], |q|);
      ChangeSound(q, a.st, qi, replaceNumbers, |q|);
      var b := Change(q, a.st, qi, replaceNumbers, |q|);
      if b.Go? {
        CopySettled(q, b.st, |q|);
        CopySound(q, b.st, |q|);
      }
    }
  }

  lemma {:induction false} ReachSettled(q: string, st: Scan, qi: nat, n: nat, replaceNumbers: bool)
    requires qi <= n <= |q| && Sound(st, qi) && Settled(st)
    ensures var r := Reach(q, st, qi, n, replaceNumbers); r.Continue? ==> Settled(r.st)
    decreases n - qi
  {
    hide Step, Sound, Settled;
    if qi < n {
      StepSound(q, st, qi, replaceNumbers);
      StepSettled(q, st, qi, replaceNumbers);
      var m := Step(q, st, qi, replaceNumbers);
      if m.Continue? {
        ReachSettled(q, m.st, qi + 1, n, replaceNumbers);
      }
    }
  }

  /** The space that is added to the end of the query, just behind a comment. */
  function Ended(st: Scan, q: string): Scan {
    if st.out != "" && !IsSpace(st.out[|st.out| - 1]) then EmitIfRoom(st, ' ', |q|).(cpFrom := |q|) else st
  }

  lemma EndStep(q: string, st: Scan, replaceNumbers: bool)
    requires q != "" && q[|q| - 1] == ' ' && st.s == Unknown && st.over == 0
    requires st.cpTo <= st.cpFrom && st.cpTo <= |q| && !IsSpace(st.pr)
    ensures Step(q, st, |q| - 1, replaceNumbers) == Continue(Ended(st, q).(pr := ' '))
  {
    hide OnDigit, OnParen, OnQuote, EmitIfRoom;
  }

  lemma EndSkipped(q: string, st: Scan, replaceNumbers: bool)
    requires q != "" && q[|q| - 1] == ' ' && st.s == Unknown && IsSpace(st.pr)
    ensures Step(q, st, |q| - 1, replaceNumbers) == Continue(st.(cpFrom := |q|, pr := ' '))
  {
    hide Change, Copy;
  }

  lemma SameEnd(q1: string, q2: string, st: Scan, replaceNumbers: bool)
    requires q1 != "" && |q1| <= |q2| && q1[|q1| - 1] == ' ' && q2[|q2| - 1] == ' ' && st.s == Unknown && st.over == 0
    requires st.cpTo <= st.cpFrom && st.cpTo <= |q1|
    requires Complete(Run(q1, st, |q1| - 1, replaceNumbers))
    ensures Run(q1, st, |q1| - 1, replaceNumbers) == Run(q2, st, |q2| - 1, replaceNumbers)
  {
    hide Step, Run, Trim, DropNul, IsSpace;
    if IsSpace(st.pr) {
      EndSkipped(q1, st, replaceNumbers);
      EndSkipped(q2, st, replaceNumbers);
    } else {
      EndStep(q1, st, replaceNumbers);
      EndStep(q2, st, replaceNumbers);
    }
    RunOnce(q1, st, |q1| - 1, replaceNumbers);
    RunOnce(q2, st, |q2| - 1, replaceNumbers);
    AtTheEnd(q1, Step(q1, st, |q1| - 1, replaceNumbers).st, replaceNumbers);
    AtTheEnd(q2, Step(q2, st, |q2| - 1, replaceNumbers).st, replaceNumbers);
  }

  // ---------------------------------------------------------------- replacing a comment

  /** Where the comment of the query ends. */
  function EndOf(before: string, k: Kind, body: string): nat {
    |before + k.Opener()| + |body| + |k.Closer()|
  }

  /** Both scans leave their comments in the same state. */
  lemma BothPast(before: string, k: Kind, body1: string, body2: string, after: string, replaceNumbers: bool)
    returns (st: Scan)
    requires k.Holds(body1) && k.Holds(body2) && |body1| <= |body2|
    requires OpensComment(before, k, body1, after, replaceNumbers)
    requires Complete(FingerprintOf(Commented(before, k, body1, after), replaceNumbers))
    ensures var q1, q2 := Commented(before, k, body1, after) + " ", Commented(before, k, body2, after) + " ";
            var o1, o2 := EndOf(before, k, body1), EndOf(before, k, body2);
            && o1 <= |q1| && Run(q1, st.(s := Unknown), o1, replaceNumbers) == Run(q1, START, 0, replaceNumbers)
            && o2 <= |q2| && Run(q2, st.(s := Unknown), o2, replaceNumbers) == Run(q2, START, 0, replaceNumbers)
    ensures var p := |before + k.Opener()|; Sound(st, p) && st.cpTo < p
    ensures InComment(k, st) && st.over == 0 && st.cpTo <= st.cpFrom
  {
    hide Run, Sound, Reach, Step, InComment, Commented, Kind.Holds, OpensComment, Stands, Settled, Kind.Opener,
      Kind.Closer;
    var q1, q2 := Commented(before, k, body1, after) + " ", Commented(before, k, body2, after) + " ";
    var p := |before + k.Opener()|;
    st := CommentOpened(before, k, body1, after, replaceNumbers);
    CommentedParts(before, k, body1, after);
    CommentedParts(before, k, body2, after);
    StartSound();
    PrefixAlike(q1, q2, START, 0, p, replaceNumbers);
    RunReach(q2, START, 0, p, replaceNumbers);
    CommentCrossed(q1, st, p, k, body1, replaceNumbers);
    CommentCrossed(q2, st, p, k, body2, replaceNumbers);
    RunReach(q1, st, p, EndOf(before, k, body1), replaceNumbers);
    RunReach(q2, st, p, EndOf(before, k, body2), replaceNumbers);
    StartSettled();
    ReachSettled(q1, START, 0, p, replaceNumbers);
    OpenedSettled(k, st);
  }

  /** A new stretch begins just behind the comment. */
  lemma SameStretch(q1: string, q2: string, st: Scan, k: Kind, p: nat, o1: nat, o2: nat, replaceNumbers: bool)
    requires 0 < p < o1 < |q1| <= |q2| && p < o2 < |q2| && q1[o1..] == q2[o2..] && (o1 == o2 || (2 < o1 && 2 < o2))
    requires InComment(k, st) && Sound(st, p) && st.cpTo < p && st.over == 0
    requires Restarts(k, q1[o1]) && q1[o1] == q2[o2]
    requires Complete(Run(q1, st.(s := Unknown), o1, replaceNumbers))
    ensures Run(q1, st.(s := Unknown), o1, replaceNumbers) == Run(q2, st.(s := Unknown), o2, replaceNumbers)
  {
    hide Run, Step, InComment, Restarts, Sound, Alike, Near, Frame.Ok;
    var t := st.(s := Unknown);
    OpenedPrevious(k, st);
    RestartsThere(q1, t, o1, k, replaceNumbers);
    RestartsThere(q2, t, o2, k, replaceNumbers);
    N.SameRound(q1, t, t.(cpFrom := o1), o1, replaceNumbers);
    N.SameRound(q2, t, t.(cpFrom := o2), o2, replaceNumbers);
    PastAlike(k, st, p, o1, o2);
    RunAlike(Frame(p, o1, o2), q1, q2, t.(cpFrom := o1), t.(cpFrom := o2), 0, replaceNumbers);
  }

  /** The text after the comment, and where it begins. */
  lemma TextAfter(before: string, k: Kind, body: string, after: string)
    ensures var q := Commented(before, k, body, after) + " ";
            var o := EndOf(before, k, body);
            && 0 < |before + k.Opener()| < o && |q| == o + |after| + 1 && q[o..] == after + " "
            && q[|q| - 1] == ' ' && (after != "" ==> q[o] == after[0])
  {
    hide Stands;
    CommentedParts(before, k, body, after);
    var q := Commented(before, k, body, after) + " ";
    assert q[|q| - 1] == ' ';
  }

  lemma CommentReplaced(before: string, k: Kind, body1: string, body2: string, after: string, replaceNumbers: bool)
    requires k.Holds(body1) && k.Holds(body2) && |body1| <= |body2| && Late(before, k) && CleanAfter(k, after)
    requires OpensComment(before, k, body1, after, replaceNumbers)
    requires Complete(FingerprintOf(Commented(before, k, body1, after), replaceNumbers))
    ensures FingerprintOf(Commented(before, k, body2, after), replaceNumbers)
         == FingerprintOf(Commented(before, k, body1, after), replaceNumbers)
  {
    hide Run, Sound, InComment, Commented, Kind.Holds, OpensComment, Restarts, Kind.Opener, Kind.Closer, EndOf, Complete;
    var q1, q2 := Commented(before, k, body1, after) + " ", Commented(before, k, body2, after) + " ";
    var o1, o2 := EndOf(before, k, body1), EndOf(before, k, body2);
    var st := BothPast(before, k, body1, body2, after, replaceNumbers);
    TextAfter(before, k, body1, after);
    TextAfter(before, k, body2, after);
    LateOffset(before, k, body1);
    LateOffset(before, k, body2);
    Longer(before, k, body1, body2);
    if after == "" {
      SameEnd(q1, q2, st.(s := Unknown), replaceNumbers);
    } else {
      SameStretch(q1, q2, st, k, |before + k.Opener()|, o1, o2, replaceNumbers);
    }
  }

  lemma Longer(before: string, k: Kind, body1: string, body2: string)
    requires |body1| <= |body2|
    ensures EndOf(before, k, body1) <= EndOf(before, k, body2)
  {}

  lemma StartSettled()
    ensures Settled(START)
  {}

  lemma OpenedSettled(k: Kind, st: Scan)
    requires InComment(k, st) && Settled(st)
    ensures st.cpTo <= st.cpFrom
  {}

  lemma OpenedPrevious(k: Kind, st: Scan)
    requires InComment(k, st)
    ensures k.Dashes? ==> st.pr == ' '
  {}

  lemma LateOffset(before: string, k: Kind, body: string)
    requires Late(before, k)
    ensures EndOf(before, k, body) > 2
  {}

  /**
    For any two bodies of a comment after which a new stretch begins: if the scan of one query is complete,
    the fingerprints are the same if and only if the scan of the other query is complete too.
   */
  lemma CommentInsensitive(before: string, k: Kind, body1: string, body2: string, after: string, replaceNumbers: bool)
    requires k.Holds(body1) && k.Holds(body2) && Late(before, k) && CleanAfter(k, after)
    requires OpensComment(before, k, body1, after, replaceNumbers)
    requires Complete(FingerprintOf(Commented(before, k, body1, after), replaceNumbers))
    ensures FingerprintOf(Commented(before, k, body1, after), replaceNumbers)
         == FingerprintOf(Commented(before, k, body2, after), replaceNumbers)
        <==> Complete(FingerprintOf(Commented(before, k, body2, after), replaceNumbers))
  {
    hide FingerprintOf, Commented, OpensComment, Kind.Holds, Late, CleanAfter;
    if |body1| <= |body2| {
      CommentReplaced(before, k, body1, body2, after, replaceNumbers);
    } else if Complete(FingerprintOf(Commented(before, k, body2, after), replaceNumbers)) {
      OpensCommentToo(before, k, body1, body2, after, replaceNumbers);
      CommentReplaced(before, k, body2, body1, after, replaceNumbers);
    }
  }

  lemma OpensCommentToo(before: string, k: Kind, body1: string, body2: string, after: string, replaceNumbers: bool)
    requires |body2| <= |body1| && OpensComment(before, k, body1, after, replaceNumbers)
    requires Complete(FingerprintOf(Commented(before, k, body2, after), replaceNumbers))
    ensures OpensComment(before, k, body2, after, replaceNumbers)
  {
    hide Run, Sound, Reach, Step, Commented;
    CommentedParts(before, k, body1, after);
    CommentedParts(before, k, body2, after);
    StartSound();
    PrefixAlike(Commented(before, k, body2, after) + " ", Commented(before, k, body1, after) + " ", START, 0,
                |before + k.Opener()|, replaceNumbers);
  }
}
