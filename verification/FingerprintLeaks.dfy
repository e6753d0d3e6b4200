/**
  When a comment is not removed. If the first character after a comment does not begin a new stretch, the
  comment can be copied to the fingerprint with what comes after it. For every such character there are two
  queries that differ only in a comment and have different fingerprints.
 */
module FingerprintLeaks {
  import opened Fingerprint
  import opened FingerprintLiterals
  import opened FingerprintReach
  import opened FingerprintComments
  import opened FingerprintTokens
  import N = FingerprintNumbers
  import L = FingerprintLists

  // ---------------------------------------------------------------- just behind the comment

  /** The word before the comment: a call keeps what is before its bracket. */
  function WordBefore(r: char): string {
    if r == '(' then "call" else "a"
  }

  /** What follows the character after the comment. */
  function Tail(r: char): string {
    if IsDigit(r) || r == '(' then ""
    else if r == '\'' || r == '"' || r == '`' then [r]
    else if r == '#' then "\n5"
    else "5"
  }

  /** Behind a comment that is still marked for copying from b on. */
  predicate Behind(k: Kind, t: Scan, w: string) {
    && t.s == Unknown && t.over == 0 && t.out == w + " " && t.prevWord == w && t.cpFrom == |w| + 1
    && t.cpTo <= |w| + 1 && !t.addSpace && !t.escape && t.sqlState == Unknown && t.valueNo == 0
    && (match k case Block => t.pr == '*' case Hash => t.pr == '#' case Dashes => t.pr == ' ')
  }

  lemma SimpleWord(w: string, replaceNumbers: bool)
    requires w == "a" || w == "call"
    ensures Fits(NOTHING, Word(w), replaceNumbers) && ToLower(w) == w
  {
    assert ToLower(w) == w;
  }

  lemma SimpleTaken(w: string)
    requires w == "a" || w == "call"
    ensures TakeWord(NOTHING, w) == Reading([w], w, Plainly, false, Closed) && Flat([w]) == w + " "
  {
    assert [] + [w] == [w];
    assert [w][..0] == [] && Flat([w][..0]) == "";
  }

  lemma FirstWord(q: string, w: string, replaceNumbers: bool) returns (st: Scan)
    requires w == "a" || w == "call"
    requires Stands(q, 0, w + " ") && |w| + 1 <= |q|
    ensures Reach(q, START, 0, |w| + 1, replaceNumbers) == Continue(st)
    ensures Agrees(st, Reading([w], w, Plainly, false, Closed), |w| + 1) && st.out == w + " "
  {
    hide Reach, Agrees, Fits, TakeWord, Flat, ToLower;
    StandsApart(q, 0, w, " ");
    StandsAt(q, |w|, " ");
    assert q[|w|] == q[|w| + 0] == ' ';
    SimpleWord(w, replaceNumbers);
    SimpleTaken(w);
    AtStart();
    st := WordTaken(q, START, NOTHING, 0, w, replaceNumbers);
    AgreesOut(st, Reading([w], w, Plainly, false, Closed), |w| + 1);
  }

  lemma AgreesOut(st: Scan, rd: Reading, qi: nat)
    requires Agrees(st, rd, qi)
    ensures st.out == Flat(rd.pieces)
  {}

  lemma BehindComment(q: string, w: string, k: Kind, body: string, replaceNumbers: bool) returns (t: Scan)
    requires (w == "a" || w == "call") && k.Holds(body)
    requires Stands(q, 0, w + " " + k.Opener() + (body + k.Closer()))
    ensures var p := |w + " " + k.Opener()|;
            var o := p + |body| + |k.Closer()|;
            && o <= |q| && Reach(q, START, 0, p, replaceNumbers).Continue?
            && InComment(k, Reach(q, START, 0, p, replaceNumbers).st)
            && Reach(q, START, 0, o, replaceNumbers) == Continue(t) && Behind(k, t, w)
  {
    hide Reach, Flat, Stands, Kind.Holds, Kind.Opener, Kind.Closer, InComment;
    var b, p := |w + " "|, |w + " " + k.Opener()|;
    StandsApart(q, 0, w + " " + k.Opener(), body + k.Closer());
    StandsApart(q, 0, w + " ", k.Opener());
    StandsWithin(q, 0, w + " " + k.Opener() + (body + k.Closer()));
    var st := FirstWord(q, w, replaceNumbers);
    var u := CommentOpens(q, st, b, k, replaceNumbers);
    ReachJoin(q, START, 0, b, p, replaceNumbers);
    CommentCrossed(q, u, p, k, body, replaceNumbers);
    t := u.(s := Unknown);
    ReachJoin(q, START, 0, p, p + |body| + |k.Closer()|, replaceNumbers);
    OpenedPr(k, u);
  }

  lemma OpenedPr(k: Kind, u: Scan)
    requires InComment(k, u)
    ensures match k case Block => u.pr == '*' case Hash => u.pr == '#' case Dashes => u.pr == ' '
  {}

  // ---------------------------------------------------------------- what is copied

  /** A text that no keyword begins with: it begins with a comment. */
  predicate Odd(word: string) {
    word != "" && (word[0] == '/' || word[0] == '#' || word[0] == '-')
  }

  lemma OddIsOrdinary(word: string)
    requires Odd(word)
    ensures !IsList(word) && word != "use" && word != "null" && word != "null," && word != "by" && word != "update"
    ensures word != "asc" && word != "asc," && word != "asc "
  {}

  /** What a scan returns that has written `out`. */
  function Result(out: string): Outcome {
    Text(DropNul(Trim(out)), 0)
  }

  lemma OddCopied(x: Scan, word: string, cap: nat)
    requires Odd(word) && x.over == 0 && |x.out| + |word| < cap && !x.addSpace
    ensures Copied(x, word, cap) == Go(x.(out := x.out + word, prevWord := word, cpFrom := x.cpTo))
  {
    hide IsList;
    OddIsOrdinary(word);
    N.WordCopied(x, word, cap);
    assert x.out + word + "" == x.out + word;
  }

  /** A digit at d, at the end of the query: all from b up to c is copied before it. */
  lemma NumberLeaks(q: string, t: Scan, b: nat, c: nat, d: nat, replaceNumbers: bool)
    requires |q| == d + 2 && IsDigit(q[d]) && q[d + 1] == ' ' && b < c && t.cpFrom == b && t.cpTo <= b
    requires (t.s == OpOrNumber && c == d - 1) || ((t.s == Unknown || t.s == DivOrMLC) && c == d)
    requires Odd(ToLower(q[b..c])) && |t.out| + (c - b) + 2 <= |q| && t.over == 0 && !t.addSpace && t.sqlState == Unknown
    ensures Run(q, t, d, replaceNumbers) == Result(t.out + ToLower(q[b..c]) + "? ")
  {
    hide Step, Run, ToLower, Trim, DropNul, IsDigit, IsSpace, Odd, N.Resume, N.Terminates;
    var word := ToLower(q[b..c]);
    var y := t.(s := InNumber, cpTo := c, cpFrom := c, out := t.out + word, prevWord := word, pr := q[d]);
    DigitStep(q, t, b, c, d, replaceNumbers);
    RunOnce(q, t, d, replaceNumbers);
    SpaceIsSpace();
    SpaceTerminates(q[d + 1]);
    N.NumeralEnds(q, y, d + 1, replaceNumbers);
    var z := N.Counted(y, d + 1);
    SpaceAfterMark(q, z, d + 1, replaceNumbers);
    RunOnce(q, y, d + 1, replaceNumbers);
    var last := z.(out := z.out + " ", cpFrom := d + 2, pr := ' ');
    AtTheEnd(q, last, replaceNumbers);
    assert last.out == t.out + word + "? ";
  }

  lemma DigitStep(q: string, t: Scan, b: nat, c: nat, d: nat, replaceNumbers: bool)
    requires d < |q| && IsDigit(q[d]) && b < c && t.cpFrom == b && t.cpTo <= b
    requires (t.s == OpOrNumber && c == d - 1) || ((t.s == Unknown || t.s == DivOrMLC) && c == d)
    requires Odd(ToLower(q[b..c])) && |t.out| + (c - b) < |q| && t.over == 0 && !t.addSpace
    ensures Step(q, t, d, replaceNumbers) ==
            Continue(t.(s := InNumber, cpTo := c, cpFrom := c, out := t.out + ToLower(q[b..c]),
                        prevWord := ToLower(q[b..c]), pr := q[d]))
  {
    hide Skip, Change, ToLower, IsDigit, IsSpace, Odd, Copied;
    N.DigitNotSpace(q[d]);
    NothingSkipped(t, d, q[d], |q|);
    N.DigitChanges(q, t, d, replaceNumbers);
    OddCopied(t.(s := InNumber, cpTo := c), ToLower(q[b..c]), |q|);
  }

  /** An empty literal at d, at the end of the query. */
  lemma QuoteLeaks(q: string, t: Scan, b: nat, d: nat, replaceNumbers: bool)
    requires |q| == d + 3 && IsQuote(q[d]) && q[d + 1] == q[d] && q[d + 2] == ' ' && b < d && t.cpFrom == b && t.cpTo <= b
    requires t.s == Unknown && Neutral(t.pr) && !t.escape
    requires Odd(ToLower(q[b..d])) && |t.out| + (d - b) + 2 <= |q| && t.over == 0 && !t.addSpace && t.sqlState == Unknown
    ensures Run(q, t, d, replaceNumbers) == Result(t.out + ToLower(q[b..d]) + "? ")
  {
    hide Step, Run, ToLower, Trim, DropNul, IsSpace, Odd, N.Resume;
    var word := ToLower(q[b..d]);
    var y := t.(s := InQuote, cpTo := d, cpFrom := d, out := t.out + word, prevWord := word, pr := q[d], quoteChar := q[d]);
    QuoteStep(q, t, b, d, replaceNumbers);
    RunOnce(q, t, d, replaceNumbers);
    ClosingStep(q, y, d + 1, replaceNumbers);
    RunOnce(q, y, d + 1, replaceNumbers);
    var z := Left(y, d + 2);
    SpaceIsSpace();
    QuoteNotSpace(q[d]);
    ResumeIsStep(q, z, d + 2, replaceNumbers);
    SpaceAfterMark(q, z, d + 2, replaceNumbers);
    RunOnce(q, z, d + 2, replaceNumbers);
    var last := z.(out := z.out + " ", cpFrom := d + 3, pr := ' ');
    AtTheEnd(q, last, replaceNumbers);
    assert last.out == t.out + word + "? ";
  }

  lemma QuoteStep(q: string, t: Scan, b: nat, d: nat, replaceNumbers: bool)
    requires d < |q| && IsQuote(q[d]) && b < d && t.cpFrom == b && t.cpTo <= b && t.s == Unknown && Neutral(t.pr)
    requires Odd(ToLower(q[b..d])) && |t.out| + (d - b) < |q| && t.over == 0 && !t.addSpace
    ensures Step(q, t, d, replaceNumbers) ==
            Continue(t.(s := InQuote, cpTo := d, cpFrom := d, out := t.out + ToLower(q[b..d]),
                        prevWord := ToLower(q[b..d]), pr := q[d], quoteChar := q[d]))
  {
    hide Skip, ToLower, IsSpace, Odd, Copied, OnSpace, OnParen, OnMark;
    QuoteNotSpace(q[d]);
    NothingSkipped(t, d, q[d], |q|);
    OddCopied(t.(s := InQuote, quoteChar := q[d], cpTo := d), ToLower(q[b..d]), |q|);
  }

  /** Two backticks at d, at the end of the query. */
  lemma BackticksLeak(q: string, t: Scan, b: nat, d: nat, replaceNumbers: bool)
    requires |q| == d + 3 && q[d] == '`' && q[d + 1] == '`' && q[d + 2] == ' ' && b < d && t.cpFrom == b && t.cpTo <= b
    requires t.s == Unknown && Neutral(t.pr) && !t.escape
    requires Odd(ToLower(q[b..d + 2])) && |t.out| + (d - b) + 3 <= |q| && t.over == 0 && t.sqlState == Unknown
    ensures Run(q, t, d, replaceNumbers) == Result(t.out + ToLower(q[b..d + 2]) + " ")
  {
    hide Step, Run, ToLower, Trim, DropNul, Odd;
    var u := t.(s := InBackticks, pr := '`');
    var v := u.(s := InWord, cpTo := d + 2);
    BacktickSteps(q, t, d, replaceNumbers);
    RunOnce(q, t, d, replaceNumbers);
    RunOnce(q, u, d + 1, replaceNumbers);
    BacktickEnds(q, v, b, d + 2, replaceNumbers);
    RunOnce(q, v, d + 2, replaceNumbers);
    AtTheEnd(q, Step(q, v, d + 2, replaceNumbers).st, replaceNumbers);
  }

  lemma BacktickSteps(q: string, t: Scan, d: nat, replaceNumbers: bool)
    requires d + 1 < |q| && q[d] == '`' && q[d + 1] == '`' && t.s == Unknown && Neutral(t.pr) && t.cpTo <= t.cpFrom
    requires !t.escape
    ensures var u := t.(s := InBackticks, pr := '`');
            && Step(q, t, d, replaceNumbers) == Continue(u)
            && Step(q, u, d + 1, replaceNumbers) == Continue(u.(s := InWord, cpTo := d + 2))
  {
    hide OnSpace, OnParen, OnMark, Copied;
  }

  lemma BacktickEnds(q: string, v: Scan, b: nat, e: nat, replaceNumbers: bool)
    requires e < |q| && q[e] == ' ' && v.s == InWord && v.pr == '`' && v.cpFrom == b < e && v.cpTo <= e && v.over == 0
    requires Odd(ToLower(q[b..e])) && |v.out| + (e - b) + 1 <= |q| && v.sqlState == Unknown
    ensures var n := Step(q, v, e, replaceNumbers);
            n.Continue? && n.st.out == v.out + ToLower(q[b..e]) + " " && n.st.over == 0
  {
    hide Skip, ToLower, IsSpace, Odd, Copied, EndWord, IsList;
    SpaceIsSpace();
    BacktickNotSpace();
    NothingSkipped(v, e, q[e], |q|);
    SpaceChange(q, v, e, replaceNumbers);
    OddIsOrdinary(ToLower(q[b..e]));
    N.PlainWordEnds(v, e, ToLower(q[b..e]), |q|);
    N.WordCopied(v.(s := InSpace, cpTo := e, addSpace := true), ToLower(q[b..e]), |q|);
  }

  lemma BacktickNotSpace()
    ensures !IsSpace('`')
  {}

  // ---------------------------------------------------------------- every character that does not begin a stretch

  lemma PlusStep(q: string, st: Scan, qi: nat, replaceNumbers: bool)
    requires qi < |q| && q[qi] == '+' && st.s == Unknown && st.cpTo <= st.cpFrom
    ensures Step(q, st, qi, replaceNumbers) == Continue(st.(s := OpOrNumber, pr := '+'))
  {
    hide Skip, Copied;
    NothingSkipped(st, qi, q[qi], |q|);
  }

  lemma PointStep(q: string, st: Scan, qi: nat, replaceNumbers: bool)
    requires qi < |q| && q[qi] == '.' && st.s == Unknown && st.cpTo <= st.cpFrom
    ensures Step(q, st, qi, replaceNumbers) == Continue(st.(pr := '.'))
  {
    hide Skip, Copied;
    NothingSkipped(st, qi, q[qi], |q|);
  }

  lemma BlankStep(q: string, st: Scan, qi: nat, replaceNumbers: bool)
    requires qi < |q| && IsSpace(q[qi]) && st.s == Unknown && st.cpTo <= st.cpFrom && st.over == 0
    requires st.out != "" && st.out[|st.out| - 1] == ' ' && !IsSpace(st.pr)
    ensures Step(q, st, qi, replaceNumbers) == Continue(st.(pr := q[qi]))
  {
    hide Skip, Copied, EndWord;
    NothingSkipped(st, qi, q[qi], |q|);
  }

  /** What has been read and is copied after all. */
  predicate Copies(q: string, t: Scan, b: nat, o: nat, c: nat, z: string, replaceNumbers: bool) {
    && b < o <= c <= |q| && (z == "? " || (z == " " && q[c - 1] == '`'))
    && Run(q, t, o, replaceNumbers) == Result(t.out + ToLower(q[b..c]) + z)
  }

  /** How far it is copied, if r is the character at o just behind the comment. */
  function CopiedTo(r: char, o: nat): nat {
    if IsDigit(r) || IsQuote(r) || r == '+' || r == '-' then o
    else if r == '`' || r == '#' then o + 2
    else o + 1
  }

  /** What is written behind it. */
  function Mark(r: char): string {
    if r == '`' then " " else "? "
  }

  /** The comment at b, and its first character. */
  predicate CommentAt(q: string, b: nat, o: nat) {
    b < o <= |q| && (q[b] == '/' || q[b] == '#' || q[b] == '-')
  }

  lemma OddFrom(q: string, b: nat, o: nat, c: nat)
    requires CommentAt(q, b, o) && b < c <= |q|
    ensures Odd(ToLower(q[b..c]))
  {}

  /** A character at o, and a digit one further on, or two, at the end of the query. */
  lemma ThenNumber(q: string, t: Scan, u: Scan, b: nat, o: nat, c: nat, d: nat, replaceNumbers: bool)
    requires CommentAt(q, b, o) && o <= d && |q| == d + 2 && q[d] == '5' && q[d + 1] == ' ' && t.out == u.out
    requires Run(q, t, o, replaceNumbers) == Run(q, u, d, replaceNumbers)
    requires (u.s == OpOrNumber && c == d - 1 == o) || ((u.s == Unknown || u.s == DivOrMLC) && c == d)
    requires u.cpFrom == b && u.cpTo <= b && u.over == 0 && !u.addSpace && u.sqlState == Unknown && |u.out| <= b
    ensures Copies(q, t, b, o, c, "? ", replaceNumbers)
  {
    hide Run, ToLower, Odd;
    OddFrom(q, b, o, c);
    NumberLeaks(q, u, b, c, d, replaceNumbers);
  }

  lemma OneThenNumber(k: Kind, q: string, t: Scan, w: string, o: nat, replaceNumbers: bool) returns (c: nat)
    requires Behind(k, t, w) && CommentAt(q, |w| + 1, o) && |q| == o + 3 && q[o + 1] == '5' && q[o + 2] == ' '
    requires q[o] == '/' || q[o] == '+' || q[o] == '-' || q[o] == '.' || (IsSpace(q[o]) && !k.Dashes?)
    ensures Copies(q, t, |w| + 1, o, c, "? ", replaceNumbers) && c == CopiedTo(q[o], o)
  {
    hide Step, Run;
    var u := t.(pr := q[o]);
    c := o + 1;
    if q[o] == '/' {
      u := u.(s := DivOrMLC);
      SlashStep(q, t, o, replaceNumbers);
    } else if q[o] == '+' {
      u, c := u.(s := OpOrNumber), o;
      PlusStep(q, t, o, replaceNumbers);
    } else if q[o] == '-' {
      u, c := u.(s := OpOrNumber), o;
      DashStep(q, t, o, replaceNumbers);
    } else if q[o] == '.' {
      PointStep(q, t, o, replaceNumbers);
    } else {
      BlankStep(q, t, o, replaceNumbers);
    }
    RunOnce(q, t, o, replaceNumbers);
    ThenNumber(q, t, u, |w| + 1, o, c, o + 1, replaceNumbers);
  }

  lemma HashThenNumber(k: Kind, q: string, t: Scan, w: string, o: nat, replaceNumbers: bool)
    requires Behind(k, t, w) && CommentAt(q, |w| + 1, o) && |q| == o + 4 && q[o] == '#' && q[o + 1] == '\n'
    requires q[o + 2] == '5' && q[o + 3] == ' '
    ensures Copies(q, t, |w| + 1, o, o + 2, "? ", replaceNumbers)
  {
    hide Step, Run;
    var u := t.(s := InOLC, addSpace := false, pr := '#');
    HashStep(q, t, o, replaceNumbers);
    RunOnce(q, t, o, replaceNumbers);
    LineEnds(q, u, o + 1, replaceNumbers);
    RunOnce(q, u, o + 1, replaceNumbers);
    ThenNumber(q, t, u.(s := Unknown), |w| + 1, o, o + 2, o + 2, replaceNumbers);
  }

  lemma OneLeaks(k: Kind, q: string, t: Scan, w: string, o: nat, replaceNumbers: bool)
    requires Behind(k, t, w) && CommentAt(q, |w| + 1, o) && o < |q| && !Restarts(k, q[o]) && q[o] != '('
    requires q[o..] == [q[o]] + Tail(q[o]) + " "
    ensures Copies(q, t, |w| + 1, o, CopiedTo(q[o], o), Mark(q[o]), replaceNumbers)
  {
    hide Run, ToLower, Odd;
    var r, b := q[o], |w| + 1;
    assert forall i :: 0 <= i < |q| - o ==> q[o + i] == q[o..][i];
    if IsDigit(r) {
      assert q[o + 1] == ' ';
      OddFrom(q, b, o, o);
      NumberLeaks(q, t, b, o, o, replaceNumbers);
    } else if IsQuote(r) {
      assert q[o + 1] == r && q[o + 2] == ' ';
      OddFrom(q, b, o, o);
      QuoteLeaks(q, t, b, o, replaceNumbers);
    } else if r == '`' {
      assert q[o + 1] == r && q[o + 2] == ' ';
      OddFrom(q, b, o, o + 2);
      BackticksLeak(q, t, b, o, replaceNumbers);
    } else if r == '#' {
      assert q[o + 1] == '\n' && q[o + 2] == '5' && q[o + 3] == ' ';
      HashThenNumber(k, q, t, w, o, replaceNumbers);
    } else {
      assert q[o + 1] == '5' && q[o + 2] == ' ';
      var c := OneThenNumber(k, q, t, w, o, replaceNumbers);
    }
  }

  /** The query that shows it. */
  function Leaking(k: Kind, r: char, body: string): string {
    Commented(WordBefore(r) + " ", k, body, [r] + Tail(r))
  }

  lemma LeakingParts(k: Kind, r: char, body: string)
    ensures var q := Leaking(k, r, body) + " ";
            var b := |WordBefore(r)| + 1;
            var o := b + |k.Opener()| + |body| + |k.Closer()|;
            && o < |q| && q[o] == r && q[o..] == [r] + Tail(r) + " " && CommentAt(q, b, o)
            && Stands(q, 0, WordBefore(r) + " " + k.Opener() + (body + k.Closer()))
            && q[..b] == WordBefore(r) + " " && q[b..o] == k.Opener() + body + k.Closer()
  {
    hide Kind.Opener, Kind.Closer, Tail, WordBefore;
    var head, comment := WordBefore(r) + " ", k.Opener() + body + k.Closer();
    var rest := [r] + Tail(r) + " ";
    var q := Leaking(k, r, body) + " ";
    assert q == head + comment + rest;
    OpenerStarts(k);
    assert q[|head|] == comment[0] == k.Opener()[0];
    var whole := head + k.Opener() + (body + k.Closer());
    assert whole == head + comment;
    assert q[0..0 + |whole|] == whole;
  }

  lemma OpenerStarts(k: Kind)
    ensures k.Opener()[0] == '/' || k.Opener()[0] == '#' || k.Opener()[0] == '-'
  {}

  /** The fingerprint of the query holds the comment. */
  lemma Leaks(k: Kind, r: char, body: string, replaceNumbers: bool)
    requires !Restarts(k, r) && k.Holds(body)
    ensures OpensComment(WordBefore(r) + " ", k, body, [r] + Tail(r), replaceNumbers)
    ensures var q := Leaking(k, r, body) + " ";
            var b := |WordBefore(r)| + 1;
            var o := b + |k.Opener()| + |body| + |k.Closer()|;
            && b < o <= CopiedTo(r, o)
            && (if r == '(' then FingerprintOf(Leaking(k, r, body), replaceNumbers) == Text("call " + q[b..o], 0)
                else CopiedTo(r, o) <= |q| && (r == '`' ==> q[CopiedTo(r, o) - 1] == '`') &&
                     FingerprintOf(Leaking(k, r, body), replaceNumbers) ==
                     Result(WordBefore(r) + " " + ToLower(q[b..CopiedTo(r, o)]) + Mark(r)))
  {
    hide Run, Reach, ToLower, Kind.Opener, Kind.Closer, Kind.Holds, Restarts, Stands, Result, Step, InComment, Tail;
    var q := Leaking(k, r, body) + " ";
    var b := |WordBefore(r)| + 1;
    var o := b + |k.Opener()| + |body| + |k.Closer()|;
    LeakingParts(k, r, body);
    var t := BehindComment(q, WordBefore(r), k, body, replaceNumbers);
    StartSound();
    RunReach(q, START, 0, o, replaceNumbers);
    if r == '(' {
      BracketStops(q, t, b, o, replaceNumbers);
      StopsAt(q, t, o, replaceNumbers);
    } else {
      OneLeaks(k, q, t, WordBefore(r), o, replaceNumbers);
    }
  }

  lemma BracketStops(q: string, t: Scan, b: nat, o: nat, replaceNumbers: bool)
    requires o < |q| && q[o] == '(' && t.s == Unknown && t.prevWord == "call" && t.cpFrom == b <= o && t.over == 0
    ensures Step(q, t, o, replaceNumbers) == Stop("call " + q[b..o], 0)
  {
    hide Skip, ToLower, IsList, OnSpace, OnMark;
    NothingSkipped(t, o, q[o], |q|);
  }

  lemma StopsAt(q: string, t: Scan, o: nat, replaceNumbers: bool)
    requires o < |q| && Step(q, t, o, replaceNumbers).Stop?
    ensures var m := Step(q, t, o, replaceNumbers); Run(q, t, o, replaceNumbers) == Text(m.text, m.over)
  {
    hide Step;
  }

  // ---------------------------------------------------------------- the boundary

  lemma ResultOf(x: string, z: string)
    requires z == "? " || (z == " " && x != "" && !IsSpace(x[|x| - 1]))
    ensures Result(x + z) == Text(DropNul(x + if z == " " then "" else "?"), 0)
  {
    hide Trim, DropNul;
    var y := x + if z == " " then "" else "?";
    assert x + z == y + " ";
    assert !IsSpace(y[|y| - 1]);
    TrimSpace(y);
  }

  lemma TrimSpace(y: string)
    requires y != "" && !IsSpace(y[|y| - 1])
    ensures Trim(y + " ") == y
  {
    assert (y + " ")[..|y|] == y;
    assert Trim(y) == y;
    assert Trim(y + " ") == Trim((y + " ")[..|y|]);
  }

  lemma DropNulDiffers(x: string, y: string, m: nat)
    requires m < |x| == |y| && x[m] == 'b' && y[m] == 'c' && x[..m] == y[..m]
    ensures DropNul(x) != DropNul(y)
  {
    assert x == x[..m] + x[m..] && y == y[..m] + y[m..];
    L.DropNulJoin(x[..m], x[m..]);
    L.DropNulJoin(y[..m], y[m..]);
    assert DropNul(x)[|DropNul(x[..m])|] == 'b';
    assert DropNul(y)[|DropNul(x[..m])|] == 'c';
  }

  lemma ResultsDiffer(x: string, y: string, m: nat, z: string)
    requires m < |x| == |y| && x[m] == 'b' && y[m] == 'c' && x[..m] == y[..m]
    requires z == "? " || (z == " " && !IsSpace(x[|x| - 1]) && !IsSpace(y[|y| - 1]))
    ensures Result(x + z) != Result(y + z)
  {
    hide Result;
    ResultOf(x, z);
    ResultOf(y, z);
    var end := if z == " " then "" else "?";
    assert (x + end)[..m] == x[..m] && (y + end)[..m] == y[..m];
    DropNulDiffers(x + end, y + end, m);
  }

  /** The opener opens a comment, and neither scan loses output. */
  predicate BothCommented(before: string, k: Kind, body1: string, body2: string, after: string, replaceNumbers: bool) {
    && k.Holds(body1) && k.Holds(body2) && OpensComment(before, k, body1, after, replaceNumbers)
    && Complete(FingerprintOf(Commented(before, k, body1, after), replaceNumbers))
    && Complete(FingerprintOf(Commented(before, k, body2, after), replaceNumbers))
  }

  predicate SameCommented(before: string, k: Kind, body1: string, body2: string, after: string, replaceNumbers: bool) {
    FingerprintOf(Commented(before, k, body1, after), replaceNumbers)
    == FingerprintOf(Commented(before, k, body2, after), replaceNumbers)
  }

  lemma BodiesHold(k: Kind)
    ensures k.Holds("b") && k.Holds("c")
  {}

  /** The two queries are the same up to the body of the comment, and differ there. */
  lemma LeakingDiffers(k: Kind, r: char, c: nat)
    requires var b := |WordBefore(r)| + 1;
             b + |k.Opener()| + 1 <= c <= |Leaking(k, r, "b") + " "|
    ensures var q1, q2 := Leaking(k, r, "b") + " ", Leaking(k, r, "c") + " ";
            var b, m := |WordBefore(r)| + 1, |k.Opener()|;
            && |q1| == |q2| && q1[b..c][..m] == q2[b..c][..m] && q1[b..c][m] == 'b' && q2[b..c][m] == 'c'
  {
    hide Kind.Opener, Kind.Closer, Tail, WordBefore;
    var b, m := |WordBefore(r)| + 1, |k.Opener()|;
    var head, rest := WordBefore(r) + " " + k.Opener(), k.Closer() + ([r] + Tail(r)) + " ";
    var q1, q2 := Leaking(k, r, "b") + " ", Leaking(k, r, "c") + " ";
    LeakingText(k, r, "b");
    LeakingText(k, r, "c");
    hide Leaking;
    assert q1[b..c][..m] == head[b..];
    assert q2[b..c][..m] == head[b..];
  }

  lemma LeakingText(k: Kind, r: char, body: string)
    ensures Leaking(k, r, body) + " " ==
            WordBefore(r) + " " + k.Opener() + body + (k.Closer() + ([r] + Tail(r)) + " ")
  {
    hide Kind.Opener, Kind.Closer, Tail, WordBefore;
  }

  lemma LowerParts(x: string, m: nat)
    requires m < |x|
    ensures ToLower(x)[..m] == ToLower(x[..m]) && ToLower(x)[m] == Lower(x[m])
  {}

  lemma LoweredDiffer(w: string, u: string, v: string, m: nat, z: string)
    requires m < |u| == |v| && u[m] == 'b' && v[m] == 'c' && u[..m] == v[..m]
    requires z == "? " || (z == " " && u[|u| - 1] == '`' && v[|v| - 1] == '`')
    ensures Result(w + ToLower(u) + z) != Result(w + ToLower(v) + z)
  {
    hide Result, ToLower;
    var x, y := w + ToLower(u), w + ToLower(v);
    LowerParts(u, m);
    LowerParts(v, m);
    assert x[..|w| + m] == w + ToLower(u)[..m];
    assert y[..|w| + m] == w + ToLower(v)[..m];
    LastKept(u);
    LastKept(v);
    ResultsDiffer(x, y, |w| + m, z);
  }

  lemma LeaksApart(k: Kind, r: char, replaceNumbers: bool)
    requires !Restarts(k, r)
    ensures FingerprintOf(Leaking(k, r, "b"), replaceNumbers) != FingerprintOf(Leaking(k, r, "c"), replaceNumbers)
  {
    hide FingerprintOf, Kind.Opener, Kind.Closer, Restarts, Result, Tail, WordBefore, ToLower, Kind.Holds, Leaking,
      OpensComment, CopiedTo;
    BodiesHold(k);
    Leaks(k, r, "b", replaceNumbers);
    Leaks(k, r, "c", replaceNumbers);
    var q1, q2 := Leaking(k, r, "b") + " ", Leaking(k, r, "c") + " ";
    var b, m := |WordBefore(r)| + 1, |k.Opener()|;
    var o := b + m + 1 + |k.Closer()|;
    if r == '(' {
      LeakingParts(k, r, "b");
      LeakingDiffers(k, r, o);
      assert ("call " + q1[b..o])[5 + m] == 'b' && ("call " + q2[b..o])[5 + m] == 'c';
    } else {
      var c := CopiedTo(r, o);
      LeakingDiffers(k, r, c);
      LoweredDiffer(WordBefore(r) + " ", q1[b..c], q2[b..c], m, Mark(r));
    }
  }

  lemma LeaksComplete(k: Kind, r: char, body: string, replaceNumbers: bool)
    requires !Restarts(k, r) && k.Holds(body)
    ensures OpensComment(WordBefore(r) + " ", k, body, [r] + Tail(r), replaceNumbers)
    ensures Complete(FingerprintOf(Leaking(k, r, body), replaceNumbers))
  {
    hide FingerprintOf, Kind.Opener, Kind.Closer, Restarts, Tail, WordBefore, ToLower, Kind.Holds, Leaking, OpensComment,
      Trim, DropNul;
    Leaks(k, r, body, replaceNumbers);
  }

  lemma LeaksDiffer(k: Kind, r: char, replaceNumbers: bool)
    requires !Restarts(k, r)
    ensures var before, after := WordBefore(r) + " ", [r] + Tail(r);
            && BothCommented(before, k, "b", "c", after, replaceNumbers)
            && !SameCommented(before, k, "b", "c", after, replaceNumbers)
  {
    hide FingerprintOf, Restarts, Tail, WordBefore, OpensComment, Kind.Holds, Complete, Commented;
    BodiesHold(k);
    LeaksComplete(k, r, "b", replaceNumbers);
    LeaksComplete(k, r, "c", replaceNumbers);
    LeaksApart(k, r, replaceNumbers);
  }

  lemma LastKept(x: string)
    ensures x != "" && x[|x| - 1] == '`' ==> !IsSpace(ToLower(x)[|x| - 1])
  {}

  /**
    Comments are interchangeable wherever the character r follows them if and only if r begins a new stretch:
    it is no digit, quote, backtick, bracket, sign, point, slash or hash sign, and white space only after a
    comment that two dashes begin.
   */
  lemma CommentBoundary(k: Kind, r: char, replaceNumbers: bool)
    ensures (forall before, body1, body2, after ::
               Late(before, k) && BothCommented(before, k, body1, body2, [r] + after, replaceNumbers) ==>
                 SameCommented(before, k, body1, body2, [r] + after, replaceNumbers))
            <==> Restarts(k, r)
  {
    hide FingerprintOf, Commented, OpensComment, Kind.Holds, Complete, Restarts, Tail, WordBefore;
    if Restarts(k, r) {
      forall before, body1, body2, after |
        Late(before, k) && BothCommented(before, k, body1, body2, [r] + after, replaceNumbers)
        ensures SameCommented(before, k, body1, body2, [r] + after, replaceNumbers)
      {
        assert ([r] + after)[0] == r;
        CommentInsensitive(before, k, body1, body2, [r] + after, replaceNumbers);
      }
    } else {
      LeaksDiffer(k, r, replaceNumbers);
      var before := WordBefore(r) + " ";
      assert Late(before, k) && BothCommented(before, k, "b", "c", [r] + Tail(r), replaceNumbers);
      assert !SameCommented(before, k, "b", "c", [r] + Tail(r), replaceNumbers);
    }
  }
}
