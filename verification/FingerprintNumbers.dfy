/**
  Numbers become question marks. A scan that meets a numeral writes one question mark for it and none of
  its characters, so that two queries that differ only in a numeral have the same fingerprint, except that
  numerals of different lengths can be told apart within the first characters of a query.
 */
module FingerprintNumbers {
  import opened Fingerprint
  import opened FingerprintLiterals

  // ---------------------------------------------------------------- a numeral is one question mark

  /** A numeral: a digit, and then digits, hexadecimal letters, points, an x or dashes. */
  predicate IsNumeral(n: string) {
    n != "" && IsDigit(n[0]) && forall i :: 0 <= i < |n| ==> InNumeral(n[i])
  }

  /** A character after which a numeral is complete, and not a part of a word. */
  predicate Terminates(r: char) {
    !InNumeral(r) && !EndsNumeral(r)
  }

  lemma {:induction false} NumeralSkipped(q: string, st: Scan, qi: nat, n: nat, replaceNumbers: bool)
    requires qi <= n <= |q| && st.s == InNumber && forall i :: qi <= i < n ==> InNumeral(q[i])
    ensures Reach(q, st, qi, n, replaceNumbers) == Continue(st)
    decreases n - qi
  {
    if qi < n {
      hide Change, Copy, InNumeral;
      assert Step(q, st, qi, replaceNumbers) == Continue(st);
      NumeralSkipped(q, st, qi + 1, n, replaceNumbers);
    }
  }

  /** The state in which the numeral is left, before the character after it is looked at. */
  function Counted(st: Scan, o: nat): Scan {
    st.(out := st.out + "?", cpFrom := o, cpTo := o, s := Unknown)
  }

  /** What happens with the character that ends the numeral. */
  function Resume(q: string, t: Scan, qi: nat, replaceNumbers: bool): Next
    requires qi < |q|
  {
    match Change(q, t, qi, replaceNumbers, |q|)
    case Go(u) =>
      (match Copy(q, u, |q|)
       case Go(v) => Continue(v.(pr := q[qi]))
       case other => other)
    case other => other
  }

  /**
    The character after a numeral adds exactly one question mark to the output, whatever the numeral was;
    from there the scan goes on as after any value.
   */
  lemma NumeralEnds(q: string, st: Scan, qi: nat, replaceNumbers: bool)
    requires qi < |q| && st.s == InNumber && st.sqlState != InMySQLCode && Terminates(q[qi])
    ensures Step(q, st, qi, replaceNumbers) ==
            if st.over == 0 && |st.out| < |q| then Resume(q, Counted(st, qi), qi, replaceNumbers) else Panic
  {
    hide Change, Copy, InNumeral, EndsNumeral;
  }

  /** From the first digit on: the numeral is skipped, and the question mark written if there is room for it. */
  lemma NumeralCrossed(q: string, st: Scan, p: nat, o: nat, replaceNumbers: bool)
    requires p <= o < |q| && st.s == InNumber && st.sqlState != InMySQLCode && Sound(st, p)
    requires (forall i :: p <= i < o ==> InNumeral(q[i])) && Terminates(q[o])
    ensures Sound(st, o) && Run(q, st, p, replaceNumbers) == Run(q, st, o, replaceNumbers)
    ensures Step(q, st, o, replaceNumbers) ==
            if st.over == 0 && |st.out| < |q| then Resume(q, Counted(st, o), o, replaceNumbers) else Panic
  {
    hide Step, Run, InNumeral, EndsNumeral, Sound;
    NumeralSkipped(q, st, p, o, replaceNumbers);
    RunReach(q, st, p, o, replaceNumbers);
    NumeralEnds(q, st, o, replaceNumbers);
  }

  // ---------------------------------------------------------------- the first digit

  /** In the scan of the query, the digit after `before` begins a number outside versioned comments. */
  predicate Begins(before: string, num: string, after: string, replaceNumbers: bool)
    requires num != ""
  {
    var q := before + num + after + " ";
    var n := Reach(q, START, 0, |before|, replaceNumbers);
    && n.Continue? && n.st.s != InNumber
    && var m := Step(q, n.st, |before|, replaceNumbers);
       m.Continue? && m.st.s == InNumber && m.st.sqlState != InMySQLCode
  }

  lemma DigitSkips(st: Scan, qi: nat, r: char, cap: nat)
    requires IsDigit(r) && st.s != InNumber
    ensures var n := Skip(st, qi, r, cap);
            n == Go(st) || n.Panic? || (n.Continue? && n.st.s != InNumber)
  {
    hide SkipValues, Emit;
    if st.s == InValues {
      ValuesNoNumber(st, qi, r, cap);
    }
  }

  lemma ValuesNoNumber(st: Scan, qi: nat, r: char, cap: nat)
    requires st.s == InValues
    ensures var n := SkipValues(st, qi, r, cap);
            n.Panic? || (n.Continue? && n.st.s != InNumber)
  {
    hide EmitAll, IsSpace;
  }

  predicate ToNumber(n: Next) {
    n.Continue? && n.st.s == InNumber
  }

  /** If one of the digits begins a number, the other does too, and the digit itself does not matter. */
  lemma FirstDigit(q1: string, q2: string, st: Scan, p: nat, replaceNumbers: bool)
    requires p < |q1| <= |q2| && q1[..p] == q2[..p] && IsDigit(q1[p]) && IsDigit(q2[p])
    requires Sound(st, p) && st.s != InNumber && st.over == 0 && st.cpFrom >= 0
    requires Alive(Step(q1, st, p, replaceNumbers))
    requires ToNumber(Step(q1, st, p, replaceNumbers)) || ToNumber(Step(q2, st, p, replaceNumbers))
    ensures ToNumber(Step(q1, st, p, replaceNumbers))
    ensures Step(q2, st, p, replaceNumbers) == Continue(Step(q1, st, p, replaceNumbers).st.(pr := q2[p]))
  {
    hide IsDigit, Skip, Copy, Change, Sound;
    assert Skip(st, p, q1[p], |q1|) == Go(st) == Skip(st, p, q2[p], |q2|) by {
      DigitSkips(st, p, q1[p], |q1|);
      DigitSkips(st, p, q2[p], |q2|);
      SameSkip(st, p, q1[p], q2[p], |q1|, |q2|);
    }
    SkipSound(st, p, q1[p], |q1|);
    var u := OnDigit(st, p, replaceNumbers);
    DigitChanges(q1, st, p, replaceNumbers);
    DigitChanges(q2, st, p, replaceNumbers);
    ChangeSound(q1, st, p, replaceNumbers, |q1|);
    SameCopy(q1, q2, u, p);
    CopyMode(q1, u, |q1|);
    CopySound(q1, u, |q1|);
    var v := Copy(q1, u, |q1|).st;
    assert Step(q1, st, p, replaceNumbers) == Continue(v.(pr := q1[p]));
    assert Step(q2, st, p, replaceNumbers) == Continue(v.(pr := q2[p]));
  }

  lemma DigitChanges(q: string, st: Scan, p: nat, replaceNumbers: bool)
    requires p < |q| && IsDigit(q[p])
    ensures Change(q, st, p, replaceNumbers, |q|) == Go(OnDigit(st, p, replaceNumbers))
  {}

  lemma CopyMode(q: string, u: Scan, cap: nat)
    ensures var n := Copy(q, u, cap); n.Go? ==> n.st.s == u.s || n.st.s == InValues
  {
    hide ToLower, IsList, EmitAll, EmitIfRoom;
  }

  lemma SameCopy(q1: string, q2: string, u: Scan, p: nat)
    requires p <= |q1| <= |q2| && q1[..p] == q2[..p] && u.cpTo <= p && u.over == 0 && u.cpFrom >= 0
    requires Alive(Copy(q1, u, |q1|))
    ensures Copy(q2, u, |q2|) == Copy(q1, u, |q1|)
  {
    hide Copied, ToLower;
    if u.cpTo > u.cpFrom {
      PrefixSlice(q1, q2, p, u.cpFrom, u.cpTo);
      var word := ToLower(q1[u.cpFrom..u.cpTo]);
      assert Copy(q1, u, |q1|) == Copied(u, word, |q1|);
      SameCopied(u, word, |q1|, |q2|);
    }
  }

  lemma PrefixSlice(q1: string, q2: string, p: nat, x: nat, y: nat)
    requires x <= y <= p <= |q1| && p <= |q2| && q1[..p] == q2[..p]
    ensures q1[x..y] == q2[x..y]
  {
    SubSlice(q1, 0, p, x, y);
    SubSlice(q2, 0, p, x, y);
    assert q1[0..p] == q1[..p] && q2[0..p] == q2[..p];
  }

  lemma DigitNotSpace(r: char)
    requires IsDigit(r)
    ensures !IsSpace(r) && r != '-' && InNumeral(r)
  {}

  lemma SameSkip(st: Scan, qi: nat, r1: char, r2: char, c1: nat, c2: nat)
    requires IsDigit(r1) && IsDigit(r2)
    ensures Skip(st, qi, r1, c1) == Go(st) <==> Skip(st, qi, r2, c2) == Go(st)
  {
    hide SkipValues, Emit;
    if st.s == InValues {
      ValuesNoNumber(st, qi, r1, c1);
      ValuesNoNumber(st, qi, r2, c2);
    }
  }

  lemma SameCopied(u: Scan, word: string, c1: nat, c2: nat)
    requires c1 <= c2 && u.over == 0
    requires Alive(Copied(u, word, c1))
    ensures Copied(u, word, c2) == Copied(u, word, c1)
  {
    hide IsList;
  }

  // ---------------------------------------------------------------- the character after it

  function WithPrevious(n: Next, c: char): Next {
    if n.Go? then Go(n.st.(pr := c)) else n
  }

  /** After a digit, which digit it was does not matter. */
  lemma ChangePrevious(q: string, t: Scan, qi: nat, replaceNumbers: bool, cap: nat, c: char)
    requires qi < |q| && IsDigit(t.pr) && IsDigit(c) && Terminates(q[qi])
    ensures Change(q, t.(pr := c), qi, replaceNumbers, cap) ==
            WithPrevious(Change(q, t, qi, replaceNumbers, cap), c)
  {
    hide OnSpace, OnParen, OnMark, OnQuote, OnBacktick, OnOperator, IsSpace, Terminates;
    var r := q[qi];
    NotDigit(r);
    if IsSpace(r) {
      SpacePrevious(q, t, qi, cap, c);
    } else if r == '(' {
      ParenPrevious(q, t, qi, c);
    } else {
      SignPrevious(t, qi, r, c);
      MarkPrevious(t, qi, r, c);
    }
  }

  lemma ParenPrevious(q: string, t: Scan, qi: nat, c: char)
    requires qi < |q|
    ensures OnParen(q, t.(pr := c), qi) == WithPrevious(OnParen(q, t, qi), c)
  {
    hide IsList, ToLower;
  }

  lemma MarkPrevious(t: Scan, qi: nat, r: char, c: char)
    requires r != '-'
    ensures OnMark(t.(pr := c), qi, r) == OnMark(t, qi, r).(pr := c)
  {
    OtherPrevious(t, qi, c);
    hide OnOther;
    if r == '/' {
    } else if r == '+' {
    } else if r == '.' {
    } else if r == '#' {
    }
  }

  lemma OtherPrevious(t: Scan, qi: nat, c: char)
    ensures OnOther(t.(pr := c), qi) == OnOther(t, qi).(pr := c)
  {}

  lemma SignPrevious(t: Scan, qi: nat, r: char, c: char)
    requires IsDigit(t.pr) && IsDigit(c)
    ensures OnQuote(t.(pr := c), qi, r) == OnQuote(t, qi, r).(pr := c)
    ensures OnBacktick(t.(pr := c)) == OnBacktick(t).(pr := c)
    ensures OnOperator(t.(pr := c), qi) == OnOperator(t, qi).(pr := c)
  {}

  lemma NotDigit(r: char)
    requires Terminates(r)
    ensures !IsDigit(r) && r != '-' && r != '.'
  {}

  lemma SpacePrevious(q: string, t: Scan, qi: nat, cap: nat, c: char)
    requires qi < |q|
    ensures OnSpace(q, t.(pr := c), qi, cap) == WithPrevious(OnSpace(q, t, qi, cap), c)
  {
    hide ToLower, IsSpace, EndWord, EmitIfRoom;
    RoomPrevious(t, cap, c);
    if t.s != Unknown && t.s != InDash && t.s != MoreValuesOrUnknown && 0 <= t.cpFrom <= qi {
      WordPrevious(t, qi, ToLower(q[t.cpFrom..qi]), cap, c);
    }
  }

  lemma RoomPrevious(t: Scan, cap: nat, c: char)
    ensures EmitIfRoom(t.(pr := c), ' ', cap) == EmitIfRoom(t, ' ', cap).(pr := c)
  {}

  lemma WordPrevious(t: Scan, qi: nat, word: string, cap: nat, c: char)
    ensures EndWord(t.(pr := c), qi, word, cap) == WithPrevious(EndWord(t, qi, word, cap), c)
  {
    NullPrevious(t, qi, word == "null,", cap, c);
    hide NullValue, DropAsc;
    AscPrevious(t, qi, word == "asc,", cap, c);
  }

  lemma NullPrevious(t: Scan, qi: nat, comma: bool, cap: nat, c: char)
    ensures NullValue(t.(pr := c), qi, comma, cap) == WithPrevious(NullValue(t, qi, comma, cap), c)
  {}

  lemma AscPrevious(t: Scan, qi: nat, comma: bool, cap: nat, c: char)
    ensures DropAsc(t.(pr := c), qi, comma, cap) == WithPrevious(DropAsc(t, qi, comma, cap), c)
  {}

  lemma CopyPrevious(q: string, t: Scan, cap: nat, c: char)
    ensures Copy(q, t.(pr := c), cap) == WithPrevious(Copy(q, t, cap), c)
  {
    hide ToLower, IsList;
  }

  lemma ResumePrevious(q: string, t: Scan, qi: nat, replaceNumbers: bool, c: char)
    requires qi < |q| && IsDigit(t.pr) && IsDigit(c) && Terminates(q[qi])
    ensures Resume(q, t.(pr := c), qi, replaceNumbers) == Resume(q, t, qi, replaceNumbers)
  {
    hide Change, Copy, IsDigit, Terminates;
    ChangePrevious(q, t, qi, replaceNumbers, |q|, c);
    var n := Change(q, t, qi, replaceNumbers, |q|);
    if n.Go? {
      CopyPrevious(q, n.st, |q|, c);
    }
  }

  // ---------------------------------------------------------------- replacing a numeral

  /** The second half of a round keeps two scans alike. */
  lemma ResumeAlike(fr: Frame, q1: string, q2: string, a: Scan, b: Scan, replaceNumbers: bool)
    requires |q1| <= |q2| && fr.Ok() && Alike(fr, a, b) && SameText(fr, q1, q2, 0) && Near(fr, a, 0)
    requires a.cpTo <= fr.o1 && b.cpTo <= fr.o2 && !a.escape
    requires 0 <= a.firstPar <= fr.o1 && 0 <= b.firstPar <= fr.o2
    requires Alive(Resume(q1, a, fr.o1, replaceNumbers))
    ensures AlikeNext(fr, Resume(q1, a, fr.o1, replaceNumbers), Resume(q2, b, fr.o2, replaceNumbers))
  {
    hide Change, Copy, Frame.Same, Frame.SameFrom, Frame.Ok, Near;
    var i, j := fr.o1, fr.o2;
    CharAlike(fr, q1, q2, 0);
    ChangeSound(q1, a, i, replaceNumbers, |q1|);
    ChangeSound(q2, b, j, replaceNumbers, |q2|);
    var c1, c2 := Change(q1, a, i, replaceNumbers, |q1|), Change(q2, b, j, replaceNumbers, |q2|);
    if c1.Go? {
      CopySound(q1, c1.st, |q1|);
    }
    ChangeAlike(fr, q1, q2, a, b, 0, replaceNumbers, |q1|, |q2|);
    if c1.Go? {
      CopyAlike(fr, q1, q2, c1.st, c2.st, 0, |q1|, |q2|);
    }
  }

  function Numbered(before: string, num: string, after: string): string {
    before + num + after
  }

  lemma NumberedParts(before: string, num: string, after: string)
    requires IsNumeral(num)
    ensures var q := Numbered(before, num, after) + " ";
            var o := |before| + |num|;
            && |q| == o + |after| + 1 && q[..|before|] == before && q[|before|] == num[0] && IsDigit(q[|before|])
            && (forall i :: |before| <= i < o ==> InNumeral(q[i]))
            && q[o..] == after + " " && q[o] == (after + " ")[0]
  {
    hide InNumeral, IsDigit;
    var q := Numbered(before, num, after) + " ";
    assert forall i :: |before| <= i < |before| + |num| ==> q[i] == num[i - |before|];
  }

  /** What the scan knows at the first digit, and when that has begun the numeral. */
  lemma Begun(before: string, num: string, after: string, replaceNumbers: bool) returns (st0: Scan, st: Scan)
    requires IsNumeral(num) && Begins(before, num, after, replaceNumbers)
    requires Complete(FingerprintOf(Numbered(before, num, after), replaceNumbers))
    ensures var q := Numbered(before, num, after) + " ";
            && Reach(q, START, 0, |before|, replaceNumbers) == Continue(st0)
            && Sound(st0, |before|) && st0.s != InNumber && st0.over == 0 && st0.cpFrom >= 0
            && |before| < |q| && Step(q, st0, |before|, replaceNumbers) == Continue(st)
            && Sound(st, |before| + 1) && st.s == InNumber && st.sqlState != InMySQLCode && st.over == 0
            && st.pr == num[0] && st.firstPar == st0.firstPar && !st.escape
            && Run(q, st, |before| + 1, replaceNumbers) == Run(q, START, 0, replaceNumbers)
  {
    hide Run, Sound, Reach, Step, IsNumeral;
    var q := Numbered(before, num, after) + " ";
    NumberedParts(before, num, after);
    StartSound();
    RunReach(q, START, 0, |before|, replaceNumbers);
    ReachDeep(q, START, 0, |before|, replaceNumbers);
    st0 := Reach(q, START, 0, |before|, replaceNumbers).st;
    RunStep(q, st0, |before|, replaceNumbers);
    RunOver(q, st0, |before|, replaceNumbers);
    st := Step(q, st0, |before|, replaceNumbers).st;
    FirstDigitState(q, st0, |before|, replaceNumbers);
  }

  lemma FirstDigitState(q: string, st: Scan, p: nat, replaceNumbers: bool)
    requires p < |q| && IsDigit(q[p]) && Sound(st, p) && st.s != InNumber
    requires ToNumber(Step(q, st, p, replaceNumbers))
    ensures var t := Step(q, st, p, replaceNumbers).st;
            t.pr == q[p] && t.firstPar == st.firstPar && !t.escape
  {
    hide IsDigit, Skip, Copy, Change, Sound;
    DigitSkips(st, p, q[p], |q|);
    SkipSound(st, p, q[p], |q|);
    DigitChanges(q, st, p, replaceNumbers);
    CopySound(q, OnDigit(st, p, replaceNumbers), |q|);
  }

  /** The numerals are of one length, or both end beyond the first two characters. */
  predicate Level(b: nat, num1: string, num2: string) {
    |num1| == |num2| || (b + |num1| > 2 && b + |num2| > 2)
  }

  function FrameOf(b: nat, num1: string, num2: string): Frame {
    Frame(if b == 0 then 1 else b, b + |num1|, b + |num2|)
  }

  lemma CountedAlike(st: Scan, b: nat, num1: string, num2: string)
    requires num1 != "" && num2 != "" && Level(b, num1, num2)
    requires st.over == 0 && IsDigit(st.pr) && 0 <= st.firstPar && (st.firstPar < b || st.firstPar == 0)
    requires st.s == InNumber
    ensures var fr := FrameOf(b, num1, num2);
            fr.Ok() && Alike(fr, Counted(st, fr.o1), Counted(st, fr.o2)) && Near(fr, Counted(st, fr.o1), 0)
            && Near(fr, st, 0)
  {}

  /** The scans at the ends of the numerals. */
  predicate Even(fr: Frame, q1: string, q2: string, st: Scan) {
    && fr.Ok() && fr.o1 < |q1| <= |q2| && fr.o2 < |q2| && q1[fr.o1..] == q2[fr.o2..]
    && Terminates(q1[fr.o1]) && Terminates(q2[fr.o2]) && IsDigit(st.pr) && st.over == 0
    && st.s == InNumber && st.sqlState != InMySQLCode && Sound(st, fr.o1) && Sound(st, fr.o2)
    && Alike(fr, Counted(st, fr.o1), Counted(st, fr.o2)) && Near(fr, Counted(st, fr.o1), 0) && Near(fr, st, 0)
  }

  /** The character after the numerals. */
  lemma NextAlike(fr: Frame, q1: string, q2: string, st: Scan, c: char, replaceNumbers: bool)
    requires Even(fr, q1, q2, st) && IsDigit(c) && Alive(Step(q1, st, fr.o1, replaceNumbers))
    ensures AlikeNext(fr, Step(q1, st, fr.o1, replaceNumbers), Step(q2, st.(pr := c), fr.o2, replaceNumbers))
  {
    hide Step, Resume, Alike, AlikeNext, Near, Frame.Ok, SameText, Terminates, IsDigit, Alive;
    var i, j := fr.o1, fr.o2;
    NumeralEnds(q1, st, i, replaceNumbers);
    NumeralEnds(q2, st.(pr := c), j, replaceNumbers);
    PanicIsNotAlive();
    ResumePrevious(q2, Counted(st, j), j, replaceNumbers, c);
    TextAlike(fr, q1, q2, 0);
    ResumeAlike(fr, q1, q2, Counted(st, i), Counted(st, j), replaceNumbers);
  }

  /** From the ends of the numerals on, the two scans go the same way. */
  lemma Onward(fr: Frame, q1: string, q2: string, st: Scan, c: char, replaceNumbers: bool)
    requires Even(fr, q1, q2, st) && IsDigit(c) && Complete(Run(q1, st, fr.o1, replaceNumbers))
    ensures Run(q1, st, fr.o1, replaceNumbers) == Run(q2, st.(pr := c), fr.o2, replaceNumbers)
  {
    var i, j := fr.o1, fr.o2;
    var st2 := st.(pr := c);
    hide Step, Run, Alike, AlikeNext, Near, Frame.Ok, Terminates, IsDigit, Complete, Alive, Counted, Sound;
    RunStep(q1, st, i, replaceNumbers);
    NextAlike(fr, q1, q2, st, c, replaceNumbers);
    var m, n := Step(q1, st, i, replaceNumbers), Step(q2, st2, j, replaceNumbers);
    if m.Continue? {
      AlikeGoesOn(fr, m, n);
      SoundPrevious(st, j, c);
      StepSound(q2, st2, j, replaceNumbers);
      StepNear(fr, q1, st, i, 0, replaceNumbers);
      RunAlike(fr, q1, q2, m.st, n.st, 1, replaceNumbers);
      RunOnce(q2, st2, j, replaceNumbers);
    } else {
      AliveEnds(m);
      AlikeStops(fr, q1, q2, st, st2, i, j, replaceNumbers);
    }
  }

  lemma PanicIsNotAlive()
    ensures !Alive(Panic)
  {}

  /**
    Replacing a numeral by another that is no shorter leaves the fingerprint as it is, as long as the scan
    of the shorter query does not fill its output array.
   */
  lemma NumeralReplaced(before: string, num1: string, num2: string, after: string, replaceNumbers: bool)
    requires IsNumeral(num1) && IsNumeral(num2) && |num1| <= |num2| && Level(|before|, num1, num2)
    requires Terminates((after + " ")[0]) && Begins(before, num1, after, replaceNumbers)
    requires Complete(FingerprintOf(Numbered(before, num1, after), replaceNumbers))
    ensures FingerprintOf(Numbered(before, num2, after), replaceNumbers)
         == FingerprintOf(Numbered(before, num1, after), replaceNumbers)
  {
    hide Run, Sound, Reach, Step, Begins, Counted, Alike, Near, Numbered, Frame.Ok, Level, Terminates, InNumeral, IsDigit;
    var q1, q2 := Numbered(before, num1, after) + " ", Numbered(before, num2, after) + " ";
    var b := |before|;
    var st0, st := Begun(before, num1, after, replaceNumbers);
    NumberedParts(before, num1, after);
    NumberedParts(before, num2, after);
    StartSound();
    PrefixAlike(q1, q2, START, 0, b, replaceNumbers);
    FirstDigit(q1, q2, st0, b, replaceNumbers);
    RunReach(q2, START, 0, b, replaceNumbers);
    RunOnce(q2, st0, b, replaceNumbers);
    var st2 := st.(pr := num2[0]);
    SoundPrevious(st, b + 1, num2[0]);
    NumeralCrossed(q1, st, b + 1, b + |num1|, replaceNumbers);
    NumeralCrossed(q2, st2, b + 1, b + |num2|, replaceNumbers);
    SoundLater(st, b + 1, b + |num2|);
    SoundBounds(st0, b);
    CountedAlike(st, b, num1, num2);
    assert Even(FrameOf(b, num1, num2), q1, q2, st);
    Onward(FrameOf(b, num1, num2), q1, q2, st, num2[0], replaceNumbers);
  }

  lemma SoundPrevious(st: Scan, qi: nat, c: char)
    requires Sound(st, qi)
    ensures Sound(st.(pr := c), qi)
  {}

  lemma SoundLater(st: Scan, qi: nat, later: nat)
    requires Sound(st, qi) && qi <= later
    ensures Sound(st, later)
  {}

  lemma SoundBounds(st: Scan, qi: nat)
    requires Sound(st, qi)
    ensures 0 <= st.firstPar && (st.firstPar < qi || st.firstPar == 0)
  {}

  /**
    For any two numerals: if the scan of one query is complete, the fingerprints are the same if and only
    if the scan of the other query is complete too.
   */
  lemma NumeralInsensitive(before: string, num1: string, num2: string, after: string, replaceNumbers: bool)
    requires IsNumeral(num1) && IsNumeral(num2) && Level(|before|, num1, num2)
    requires Terminates((after + " ")[0]) && Begins(before, num1, after, replaceNumbers)
    requires Complete(FingerprintOf(Numbered(before, num1, after), replaceNumbers))
    ensures FingerprintOf(Numbered(before, num1, after), replaceNumbers)
         == FingerprintOf(Numbered(before, num2, after), replaceNumbers)
        <==> Complete(FingerprintOf(Numbered(before, num2, after), replaceNumbers))
  {
    hide Run, Sound, Reach, Step, Begins, IsNumeral, Terminates;
    if |num1| <= |num2| {
      NumeralReplaced(before, num1, num2, after, replaceNumbers);
    } else if Complete(FingerprintOf(Numbered(before, num2, after), replaceNumbers)) {
      BeginsToo(before, num1, num2, after, replaceNumbers);
      NumeralReplaced(before, num2, num1, after, replaceNumbers);
    }
  }

  /** Whether a digit begins a numeral depends only on what comes before it. */
  lemma BeginsToo(before: string, num1: string, num2: string, after: string, replaceNumbers: bool)
    requires IsNumeral(num1) && IsNumeral(num2) && |num2| <= |num1| && Begins(before, num1, after, replaceNumbers)
    requires Complete(FingerprintOf(Numbered(before, num1, after), replaceNumbers))
    requires Complete(FingerprintOf(Numbered(before, num2, after), replaceNumbers))
    ensures Begins(before, num2, after, replaceNumbers)
  {
    hide Run, Sound, Reach, Step, IsNumeral, Alive;
    var q1, q2 := Numbered(before, num1, after) + " ", Numbered(before, num2, after) + " ";
    var b := |before|;
    var st0, st := Begun(before, num1, after, replaceNumbers);
    NumberedParts(before, num1, after);
    NumberedParts(before, num2, after);
    StartSound();
    PrefixAlike(q2, q1, START, 0, b, replaceNumbers);
    RunReach(q2, START, 0, b, replaceNumbers);
    RunStep(q2, st0, b, replaceNumbers);
    FirstDigit(q2, q1, st0, b, replaceNumbers);
  }

  // ---------------------------------------------------------------- numbers in words and version numbers

  /** Where numbers in words are replaced, the digits are passed over and one question mark is written for them. */
  lemma {:induction false} NumberInWordCrossed(q: string, st: Scan, p: nat, o: nat, replaceNumbers: bool)
    requires p <= o < |q| && st.s == InNumberInWord && (forall i :: p <= i < o ==> IsDigit(q[i])) && !IsDigit(q[o])
    ensures Reach(q, st, p, o, replaceNumbers) == Continue(st)
    ensures st.over == 0 && |st.out| < |q| ==>
              Step(q, st, o, replaceNumbers) ==
              Resume(q, st.(out := st.out + "?", cpFrom := o, s := if IsSpace(q[o]) then Unknown else InWord), o,
                     replaceNumbers)
    decreases o - p
  {
    hide Change, Copy, IsDigit, IsSpace;
    if p < o {
      assert Step(q, st, p, replaceNumbers) == Continue(st);
      NumberInWordCrossed(q, st, p + 1, o, replaceNumbers);
    }
  }

  lemma NumeralNoKeyword(num: string)
    requires num != "" && IsDigit(num[0])
    ensures var l := ToLower(num);
            && l != "use" && l != "null" && l != "null," && l != "by" && l != "asc" && l != "asc," && l != "asc "
            && l != "update" && !IsList(l)
  {
    assert ToLower(num)[0] == Lower(num[0]) == num[0];
  }

  lemma PlainWordEnds(u: Scan, e: nat, l: string, cap: nat)
    requires l != "use" && l != "null" && l != "null," && l != "by" && l != "asc" && l != "asc,"
    requires l != "asc " && l != "update"
    ensures EndWord(u, e, l, cap) == Go(u.(s := InSpace, cpTo := e, addSpace := true))
  {}

  lemma WordCopied(u: Scan, l: string, cap: nat)
    requires u.over == 0 && |u.out| + |l| + 1 <= cap && !IsList(l)
    ensures Copied(u, l, cap) ==
            Go(u.(out := u.out + l + (if u.addSpace then " " else ""), prevWord := l, addSpace := false,
                  cpFrom := u.cpTo + if u.addSpace then 1 else 0))
  {
    assert u.out + l + "" == u.out + l;
  }

  /**
    The version number of a versioned comment is kept as it is, and it ends the exception: the next number
    is replaced again.
   */
  lemma VersionKept(q: string, st: Scan, d: nat, o: nat, replaceNumbers: bool)
    requires d < o < |q| && st.s == InNumber && st.sqlState == InMySQLCode && st.cpFrom == d && st.over == 0
    requires IsDigit(q[d]) && (forall i :: d < i < o ==> InNumeral(q[i])) && IsSpace(q[o]) && !IsSpace(st.pr)
    requires |st.out| + (o - d) + 1 <= |q|
    ensures Reach(q, st, d + 1, o, replaceNumbers) == Continue(st)
    ensures Step(q, st, o, replaceNumbers) ==
            Continue(st.(out := st.out + ToLower(q[d..o]) + " ", prevWord := ToLower(q[d..o]), s := InSpace,
                         sqlState := Unknown, cpFrom := o + 1, cpTo := o, addSpace := false, pr := q[o]))
  {
    NumeralSkipped(q, st, d + 1, o, replaceNumbers);
    hide Reach, InNumeral, IsDigit, ToLower, IsList, EndWord, Copied, OnParen;
    var l := ToLower(q[d..o]);
    assert q[d..o][0] == q[d];
    NumeralNoKeyword(q[d..o]);
    var u := st.(cpTo := o, s := InWord, sqlState := Unknown);
    SpaceIsNoNumeral(q[o]);
    assert Change(q, u, o, replaceNumbers, |q|) == EndWord(u, o, l, |q|);
    PlainWordEnds(u, o, l, |q|);
    WordCopied(u.(s := InSpace, addSpace := true), l, |q|);
  }

  lemma SpaceIsNoNumeral(r: char)
    requires IsSpace(r)
    ensures !InNumeral(r) && !EndsNumeral(r) && !IsDigit(r)
  {}

  // ---------------------------------------------------------------- the boundary

  /** A value has been written, and the last offset of a copy is c. */
  predicate Waiting(st: Scan, j: nat, c: nat, cap: nat) {
    && st.s == Unknown && st.cpFrom == j && st.cpTo == c <= j && st.over == 0 && |st.out| < cap
    && !st.addSpace && !IsSpace(st.pr) && st.pr != '-' && st.sqlState != OnDupeKeyUpdate
  }

  /**
    A sign and a comment at the end of a query: the sign is written only if the last offset of a copy is
    above 2.
   */
  lemma SignAndComment(q: string, st: Scan, j: nat, c: nat, replaceNumbers: bool)
    requires |q| == j + 5 && q[j..] == "=--  " && Waiting(st, j, c, |q|)
    ensures Run(q, st, j, replaceNumbers) == Text(DropNul(Trim(st.out + if c > 2 then "=" else "")), 0)
  {
    hide Run, Step, Trim, DropNul;
    assert q[j] == "=--  "[0] && q[j + 1] == "=--  "[1] && q[j + 2] == "=--  "[2] && q[j + 3] == "=--  "[3];
    var v := st.(s := InDash, pr := '-');
    SignAndDashes(q, st, j, replaceNumbers);
    CommentBegins(q, v, j, replaceNumbers);
    RunOnce(q, v, j + 3, replaceNumbers);
    CommentEnds(q, Step(q, v, j + 3, replaceNumbers).st, replaceNumbers);
  }

  lemma SignAndDashes(q: string, st: Scan, j: nat, replaceNumbers: bool)
    requires j + 3 <= |q| && q[j] == '=' && q[j + 1] == '-' && q[j + 2] == '-'
    requires st.s == Unknown && st.cpFrom == j && st.cpTo <= j && !IsSpace(st.pr)
    ensures Run(q, st, j, replaceNumbers) == Run(q, st.(s := InDash, pr := '-'), j + 3, replaceNumbers)
  {
    hide Run, Step;
    var t := st.(s := InOp, pr := '=');
    var u := t.(s := OpOrNumber, pr := '-');
    SignStep(q, st, j, replaceNumbers);
    RunOnce(q, st, j, replaceNumbers);
    DashStep(q, t, j + 1, replaceNumbers);
    RunOnce(q, t, j + 1, replaceNumbers);
    DashStep(q, u, j + 2, replaceNumbers);
    RunOnce(q, u, j + 2, replaceNumbers);
  }

  lemma SignStep(q: string, st: Scan, j: nat, replaceNumbers: bool)
    requires j < |q| && q[j] == '=' && st.s == Unknown && st.cpFrom == j && st.cpTo <= j && !IsSpace(st.pr)
    ensures Step(q, st, j, replaceNumbers) == Continue(st.(s := InOp, pr := '='))
  {}

  lemma CommentBegins(q: string, v: Scan, j: nat, replaceNumbers: bool)
    requires j + 5 == |q| && q[j] == '=' && q[j + 3] == ' ' && v.s == InDash && v.pr == '-' && v.cpFrom == j
    requires v.cpTo <= j && v.over == 0 && |v.out| < |q| && !v.addSpace
    ensures var n := Step(q, v, j + 3, replaceNumbers);
            n.Continue? && n.st.s == InOLC && n.st.over == 0 && n.st.out == v.out + if v.cpTo > 2 then "=" else ""
  {
    hide OnDigit, OnParen, OnQuote;
    if v.cpTo > 2 {
      assert ToLower(q[j..j + 1]) == "=";
    }
  }

  /** What follows the numeral in the query that tells numerals of different lengths apart. */
  function Sequel(o: nat): string {
    if o == 2 then "=-- " else ",''=-- "
  }

  /** A single sign, or nothing. */
  function Ahead(b: nat): string {
    if b == 0 then "" else "="
  }

  lemma FirstOf(q: string, b: nat, replaceNumbers: bool) returns (st: Scan)
    requires b <= 1 && b < |q| && q[..b] == Ahead(b) && IsDigit(q[b])
    ensures Reach(q, START, 0, b, replaceNumbers).Continue?
    ensures Reach(q, START, 0, b, replaceNumbers).st.s != InNumber
    ensures Step(q, Reach(q, START, 0, b, replaceNumbers).st, b, replaceNumbers) == Continue(st)
    ensures st == START.(out := Ahead(b), s := InNumber, pr := q[b], cpFrom := b, cpTo := b, prevWord := Ahead(b))
  {
    hide Step, IsDigit;
    if b == 0 {
      assert Reach(q, START, 0, 0, replaceNumbers) == Continue(START);
      st := START.(s := InNumber, pr := q[0]);
      DigitAtStart(q, replaceNumbers);
    } else {
      assert q[0] == q[..1][0] == '=';
      var t := START.(s := InOp, pr := '=');
      SignStep(q, START, 0, replaceNumbers);
      assert Reach(q, t, 1, 1, replaceNumbers) == Continue(t);
      st := START.(out := "=", s := InNumber, pr := q[1], cpFrom := 1, cpTo := 1, prevWord := "=");
      DigitAfterSign(q, replaceNumbers);
    }
  }

  lemma DigitAtStart(q: string, replaceNumbers: bool)
    requires q != "" && IsDigit(q[0])
    ensures Step(q, START, 0, replaceNumbers) == Continue(START.(s := InNumber, pr := q[0]))
  {}

  lemma DigitAfterSign(q: string, replaceNumbers: bool)
    requires |q| > 1 && q[0] == '=' && IsDigit(q[1])
    ensures Step(q, START.(s := InOp, pr := '='), 1, replaceNumbers) ==
            Continue(START.(out := "=", s := InNumber, pr := q[1], cpFrom := 1, cpTo := 1, prevWord := "="))
  {
    hide Change;
    DigitNotSpace(q[1]);
    DigitChanges(q, START.(s := InOp, pr := '='), 1, replaceNumbers);
    assert ToLower(q[0..1]) == "=";
  }

  lemma CommaStep(q: string, t: Scan, o: nat, replaceNumbers: bool)
    requires o < |q| && q[o] == ',' && t.s == Unknown && t.cpFrom == o == t.cpTo && t.valueNo == 0
    requires t.sqlState == Unknown
    ensures Resume(q, t, o, replaceNumbers) == Continue(t.(s := InWord, pr := ','))
  {}

  lemma QuoteStep(q: string, t: Scan, o: nat, replaceNumbers: bool)
    requires o + 1 < |q| && q[o] == ',' && q[o + 1] == '\'' && t.s == InWord && t.pr == ',' && t.cpFrom == o == t.cpTo
    requires t.over == 0 && |t.out| < |q| && !t.addSpace
    ensures Step(q, t, o + 1, replaceNumbers) ==
            Continue(t.(s := InQuote, quoteChar := '\'', cpTo := o + 1, cpFrom := o + 1, prevWord := ",",
                        out := t.out + ",", pr := '\''))
  {
    assert ToLower(q[o..o + 1]) == ",";
  }

  /** A numeral with nothing or a sign before it, and the sequel: what tells them apart is its end. */
  lemma TellsApart(b: nat, num: string, o: nat, replaceNumbers: bool)
    requires b <= 1 && IsNumeral(num) && 1 <= o <= 2
    ensures Begins(Ahead(b), num, Sequel(o), replaceNumbers)
    ensures var end := b + |num| + (if o == 2 then 0 else 1);
            FingerprintOf(Numbered(Ahead(b), num, Sequel(o)), replaceNumbers) ==
            Text(DropNul(Trim(Ahead(b) + (if o == 2 then "?" else "?,?") + if end > 2 then "=" else "")), 0)
  {
    hide Run, Step, Trim, DropNul, Sound, InNumeral, IsDigit, Reach, Terminates;
    var q := Numbered(Ahead(b), num, Sequel(o)) + " ";
    var e := b + |num|;
    NumberedParts(Ahead(b), num, Sequel(o));
    StartSound();
    RunReach(q, START, 0, b, replaceNumbers);
    var st := FirstOf(q, b, replaceNumbers);
    var st0 := Reach(q, START, 0, b, replaceNumbers).st;
    RunOnce(q, st0, b, replaceNumbers);
    StepSound(q, st0, b, replaceNumbers);
    RoomFor(b, num, o);
    NumeralCrossed(q, st, b + 1, e, replaceNumbers);
    if o == 2 {
      SignAfter(q, st, e, replaceNumbers);
    } else {
      CommaAfter(q, st, e, replaceNumbers);
      assert Ahead(b) + "?" + ",?" == Ahead(b) + "?,?";
    }
  }

  lemma RoomFor(b: nat, num: string, o: nat)
    requires b <= 1 && num != "" && 1 <= o <= 2
    ensures var q := Numbered(Ahead(b), num, Sequel(o)) + " ";
            |q| >= |Ahead(b)| + 5 && Terminates(q[b + |num|])
  {}

  /** A numeral has been read up to e. */
  predicate Read(q: string, st: Scan, e: nat) {
    && e < |q| && st.s == InNumber && IsDigit(st.pr) && st.over == 0 && |st.out| + 5 <= |q| && st.sqlState == Unknown
    && !st.addSpace && st.valueNo == 0 && !st.escape && Terminates(q[e])
  }

  lemma SignAfter(q: string, st: Scan, e: nat, replaceNumbers: bool)
    requires Read(q, st, e) && q[e..] == Sequel(2) + " "
    ensures Run(q, st, e, replaceNumbers) == Text(DropNul(Trim(st.out + "?" + if e > 2 then "=" else "")), 0)
  {
    hide Run, Step, Resume, Trim, DropNul, Terminates, IsDigit;
    NumeralEnds(q, st, e, replaceNumbers);
    DigitNotSpace(st.pr);
    var t := Counted(st, e);
    assert Sequel(2) + " " == "=--  ";
    assert |q| == e + 5;
    ResumeSign(q, t, e, replaceNumbers);
    SameRound(q, st, t, e, replaceNumbers);
    SignAndComment(q, t, e, e, replaceNumbers);
  }

  lemma CommaAfter(q: string, st: Scan, e: nat, replaceNumbers: bool)
    requires Read(q, st, e) && q[e..] == Sequel(1) + " "
    ensures Run(q, st, e, replaceNumbers) == Text(DropNul(Trim(st.out + "?" + ",?" + if e + 1 > 2 then "=" else "")), 0)
  {
    hide Run, Step, Resume, Trim, DropNul, Terminates, IsDigit;
    NumeralEnds(q, st, e, replaceNumbers);
    DigitNotSpace(st.pr);
    var t := Counted(st, e);
    assert Sequel(1) + " " == ",''=--  ";
    assert |q| == e + 8 && q[e] == ",''=--  "[0] && q[e + 1] == ",''=--  "[1] && q[e + 2] == ",''=--  "[2];
    CommaStep(q, t, e, replaceNumbers);
    RunOnce(q, st, e, replaceNumbers);
    var u := t.(s := InWord, pr := ',');
    QuoteStep(q, u, e, replaceNumbers);
    RunOnce(q, u, e + 1, replaceNumbers);
    var v := Step(q, u, e + 1, replaceNumbers).st;
    ClosingStep(q, v, e + 2, replaceNumbers);
    RunOnce(q, v, e + 2, replaceNumbers);
    assert q[e + 3..] == q[e..][3..] == "=--  ";
    SignAndComment(q, Left(v, e + 3), e + 3, e + 1, replaceNumbers);
    assert Left(v, e + 3).out == st.out + "?" + ",?";
  }

  lemma ResumeSign(q: string, t: Scan, e: nat, replaceNumbers: bool)
    requires e < |q| && q[e] == '=' && t.s == Unknown && t.cpFrom == e == t.cpTo && !IsSpace(t.pr)
    ensures Resume(q, t, e, replaceNumbers) == Step(q, t, e, replaceNumbers)
  {
    hide Change, Copy;
  }

  lemma SameRound(q: string, a: Scan, b: Scan, e: nat, replaceNumbers: bool)
    requires e < |q| && Step(q, a, e, replaceNumbers) == Step(q, b, e, replaceNumbers)
    ensures Run(q, a, e, replaceNumbers) == Run(q, b, e, replaceNumbers)
  {
    hide Step;
  }

  /** The digit begins a numeral, and neither scan loses output. */
  predicate BothNumbered(before: string, num1: string, num2: string, after: string, replaceNumbers: bool)
    requires num1 != ""
  {
    && Terminates((after + " ")[0]) && Begins(before, num1, after, replaceNumbers)
    && Complete(FingerprintOf(Numbered(before, num1, after), replaceNumbers))
    && Complete(FingerprintOf(Numbered(before, num2, after), replaceNumbers))
  }

  predicate AgreeOn(before: string, num1: string, num2: string, after: string, replaceNumbers: bool) {
    FingerprintOf(Numbered(before, num1, after), replaceNumbers)
    == FingerprintOf(Numbered(before, num2, after), replaceNumbers)
  }

  /**
    Two numerals are interchangeable after every text of a length and in front of every continuation of
    the query if and only if they are of one length or both end beyond the first two characters.
   */
  lemma NumeralBoundary(b: nat, num1: string, num2: string, replaceNumbers: bool)
    requires IsNumeral(num1) && IsNumeral(num2)
    ensures (forall before, after :: |before| == b && BothNumbered(before, num1, num2, after, replaceNumbers) ==>
                                     AgreeOn(before, num1, num2, after, replaceNumbers))
            <==> Level(b, num1, num2)
  {
    hide FingerprintOf, Begins, Numbered, Complete, IsNumeral, Terminates;
    NonEmpty(num1);
    NonEmpty(num2);
    if Level(b, num1, num2) {
      forall before, after | |before| == b && BothNumbered(before, num1, num2, after, replaceNumbers)
        ensures AgreeOn(before, num1, num2, after, replaceNumbers)
      {
        NumeralInsensitive(before, num1, num2, after, replaceNumbers);
      }
    } else {
      var o := b + if |num1| < |num2| then |num1| else |num2|;
      TellsApart(b, num1, o, replaceNumbers);
      TellsApart(b, num2, o, replaceNumbers);
      SequelTerminates(o);
      Different(b, o);
      assert forall t: string :: Complete(Text(t, 0)) by {
        forall t: string {
          CompleteText(t);
        }
      }
      assert BothNumbered(Ahead(b), num1, num2, Sequel(o), replaceNumbers);
      assert !AgreeOn(Ahead(b), num1, num2, Sequel(o), replaceNumbers);
    }
  }

  lemma NonEmpty(num: string)
    requires IsNumeral(num)
    ensures num != ""
  {}

  lemma SequelTerminates(o: nat)
    ensures Terminates((Sequel(o) + " ")[0])
  {}

  lemma Different(b: nat, o: nat)
    requires b <= 1
    ensures var t := Ahead(b) + (if o == 2 then "?" else "?,?");
            DropNul(Trim(t + "=")) != DropNul(Trim(t + ""))
  {
    var t := Ahead(b) + (if o == 2 then "?" else "?,?");
    assert t + "" == t;
    Kept(t);
    Kept(t + "=");
  }

  lemma Kept(t: string)
    requires t != "" && !IsSpace(t[|t| - 1]) && '\0' !in t
    ensures DropNul(Trim(t)) == t
  {
    NoNul(t);
  }

  lemma {:induction false} NoNul(t: string)
    requires '\0' !in t
    ensures DropNul(t) == t
    decreases |t|
  {
    if t != "" {
      NoNul(t[1..]);
    }
  }
}
