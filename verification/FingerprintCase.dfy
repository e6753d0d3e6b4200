/**
  Fingerprints are in lower case, with two exceptions: CALL, whose procedure name is returned as the query
  spells it, and administrator commands, which are returned as they are. A fingerprint has an upper-case
  letter exactly if the scan reaches one of the two branches with such a letter in what they return.
 */
module FingerprintCase {
  import opened Fingerprint
  import opened FingerprintLiterals

  predicate IsUpper(c: char) {
    'A' <= c <= 'Z'
  }

  predicate NoUpper(s: string) {
    forall i :: 0 <= i < |s| ==> !IsUpper(s[i])
  }

  lemma NoUpperJoin(a: string, b: string)
    requires NoUpper(a) && NoUpper(b)
    ensures NoUpper(a + b)
  {}

  lemma LoweredWord(w: string)
    ensures NoUpper(ToLower(w))
  {}

  /** The output of a part of the loop body is still in lower case. */
  predicate Lowered(n: Next) {
    n.Go? || n.Continue? ==> NoUpper(n.st.out)
  }

  lemma EmitLowered(st: Scan, c: char, cap: nat)
    requires NoUpper(st.out) && !IsUpper(c)
    ensures Lowered(Emit(st, c, cap)) && NoUpper(EmitIfRoom(st, c, cap).out)
  {
    NoUpperJoin(st.out, [c]);
  }

  lemma EmitAllLowered(st: Scan, w: string, cap: nat)
    requires NoUpper(st.out) && NoUpper(w)
    ensures Lowered(EmitAll(st, w, cap))
  {
    NoUpperJoin(st.out, w);
  }

  lemma SkipLowered(st: Scan, qi: nat, r: char, cap: nat)
    requires NoUpper(st.out)
    ensures Lowered(Skip(st, qi, r, cap))
  {
    hide NoUpper, Emit, EmitAll, EndValues, IsSpace, InNumeral, EndsNumeral, IsDigit;
    match st.s {
      case InQuote => EmitLowered(st.(escape := false, cpFrom := qi + 1), '?', cap);
      case InNumberInWord => EmitLowered(st, '?', cap);
      case InNumber => EmitLowered(st, '?', cap);
      case InValues => EndValuesLowered(Brackets(st, qi, r), qi, r, cap);
      case _ =>
    }
  }

  lemma EndValuesLowered(st: Scan, qi: nat, r: char, cap: nat)
    requires NoUpper(st.out)
    ensures Lowered(EndValues(st, qi, r, cap))
  {
    hide EmitAll;
    var counted := st.(valueNo := st.valueNo + 1, firstPar := 0);
    EmitAllLowered(counted, if qi - st.firstPar > 1 then "(?+)" else "()", cap);
  }

  lemma EndWordLowered(st: Scan, qi: nat, word: string, cap: nat)
    requires NoUpper(st.out)
    ensures Lowered(EndWord(st, qi, word, cap))
  {
    hide EmitAll, EmitIfRoom;
    var w := if word == "null," then "?," else "?";
    EmitAllLowered(st, w, cap);
    if EmitAll(st, w, cap).Go? {
      EmitLowered(EmitAll(st, w, cap).st, ' ', cap);
    }
    if st.out != "" {
      NoUpperJoin(st.out[..|st.out| - 1], ", ");
    }
  }

  lemma ChangeLowered(q: string, st: Scan, qi: nat, replaceNumbers: bool, cap: nat)
    requires qi < |q| && NoUpper(st.out)
    ensures Lowered(Change(q, st, qi, replaceNumbers, cap))
  {
    hide NoUpper, EmitIfRoom, EndWord, IsSpace, IsDigit, IsList, ToLower, OnDigit, OnMark;
    EmitLowered(st, ' ', cap);
    DigitKeeps(st, qi, replaceNumbers);
    MarkKeeps(st, qi, q[qi]);
    if 0 <= st.cpFrom <= qi {
      EndWordLowered(st, qi, ToLower(q[st.cpFrom..qi]), cap);
    }
  }

  lemma DigitKeeps(st: Scan, qi: nat, replaceNumbers: bool)
    ensures OnDigit(st, qi, replaceNumbers).out == st.out
  {}

  lemma MarkKeeps(st: Scan, qi: nat, r: char)
    ensures OnMark(st, qi, r).out == st.out
  {}

  lemma CopyLowered(q: string, st: Scan, cap: nat)
    requires NoUpper(st.out)
    ensures Lowered(Copy(q, st, cap))
  {
    hide NoUpper, EmitAll, EmitIfRoom, IsList, ToLower;
    if st.cpFrom < st.cpTo <= |q| && st.cpFrom >= 0 {
      var word := ToLower(q[st.cpFrom..st.cpTo]);
      LoweredWord(q[st.cpFrom..st.cpTo]);
      var t := st.(prevWord := word, cpFrom := st.cpTo);
      EmitAllLowered(t, word, cap);
      if EmitAll(t, word, cap).Go? {
        EmitLowered(EmitAll(t, word, cap).st, ' ', cap);
      }
    }
  }

  lemma StepLowered(q: string, st: Scan, qi: nat, replaceNumbers: bool)
    requires qi < |q| && NoUpper(st.out)
    ensures Lowered(Step(q, st, qi, replaceNumbers))
  {
    hide NoUpper, Skip, Change, Copy;
    SkipLowered(st, qi, q[qi], |q|);
    var a := Skip(st, qi, q[qi], |q|);
    if a.Go? {
      ChangeLowered(q, a.st, qi, replaceNumbers, |q|);
      var b := Change(q, a.st, qi, replaceNumbers, |q|);
      if b.Go? {
        CopyLowered(q, b.st, |q|);
      }
    }
  }

  lemma {:induction false} TrimLowered(out: string)
    requires NoUpper(out)
    ensures NoUpper(Trim(out))
  {
    if out != "" && IsSpace(out[|out| - 1]) {
      TrimLowered(out[..|out| - 1]);
    }
  }

  lemma {:induction false} DropLowered(out: string)
    requires NoUpper(out)
    ensures NoUpper(DropNul(out))
  {
    if out != "" {
      DropLowered(out[1..]);
    }
  }

  // ---------------------------------------------------------------- the two exceptions

  /** The scan is at the bracket after the name of a procedure, which has an upper-case letter. */
  predicate CallHere(q: string, st: Scan, qi: nat)
    requires qi < |q|
  {
    var a := Skip(st, qi, q[qi], |q|);
    && a.Go? && q[qi] == '(' && a.st.prevWord == "call"
    && 0 <= a.st.cpFrom <= qi && !NoUpper(q[a.st.cpFrom..qi])
  }

  /** The scan is at the colon of an administrator command. */
  predicate AdministratorHere(q: string, st: Scan, qi: nat)
    requires qi < |q|
  {
    var a := Skip(st, qi, q[qi], |q|);
    a.Go? && q[qi] == ':' && a.st.prevWord == "administrator"
  }

  lemma CallText(w: string)
    ensures NoUpper("call " + w) <==> NoUpper(w)
  {
    var t := "call " + w;
    assert forall i :: 0 <= i < |w| ==> w[i] == t[i + 5];
    assert forall i :: 0 <= i < 5 ==> t[i] == "call "[i];
  }

  lemma SkipGoesOn(st: Scan, qi: nat, r: char, cap: nat)
    ensures !Skip(st, qi, r, cap).Stop? && !Skip(st, qi, r, cap).Verbatim?
  {
    hide IsSpace, InNumeral, EndsNumeral, IsDigit, Emit, SkipValues;
    if st.s == InValues {
      ValuesGoOn(st, qi, r, cap);
    }
  }

  lemma ValuesGoOn(st: Scan, qi: nat, r: char, cap: nat)
    ensures !SkipValues(st, qi, r, cap).Stop? && !SkipValues(st, qi, r, cap).Verbatim?
  {
    hide IsSpace, EmitAll;
  }

  lemma EndWordStops(st: Scan, qi: nat, word: string, cap: nat)
    ensures var n := EndWord(st, qi, word, cap);
            !n.Verbatim? && (n.Stop? ==> n.text == "use ?")
  {
    hide EmitAll, EmitIfRoom;
  }

  lemma CopyGoesOn(q: string, st: Scan, cap: nat)
    ensures !Copy(q, st, cap).Stop? && !Copy(q, st, cap).Verbatim?
  {
    hide IsList, ToLower, EmitAll, EmitIfRoom;
  }

  /** The character part returns an upper-case letter only at a call, and the whole query only at a command. */
  lemma ChangeStops(q: string, st: Scan, qi: nat, replaceNumbers: bool, cap: nat)
    requires qi < |q|
    ensures var n := Change(q, st, qi, replaceNumbers, cap);
            && (n.Verbatim? <==> q[qi] == ':' && st.prevWord == "administrator")
            && (n.Stop? && !NoUpper(n.text) <==>
                  q[qi] == '(' && st.prevWord == "call" && 0 <= st.cpFrom <= qi && !NoUpper(q[st.cpFrom..qi]))
  {
    hide NoUpper, EmitIfRoom, EndWord, IsList, ToLower, OnDigit, OnMark;
    assert NoUpper("use ?") by {
      UseText();
    }
    if 0 <= st.cpFrom <= qi {
      EndWordStops(st, qi, ToLower(q[st.cpFrom..qi]), cap);
      CallText(q[st.cpFrom..qi]);
    }
  }

  lemma UseText()
    ensures NoUpper("use ?")
  {}

  lemma StepStops(q: string, st: Scan, qi: nat, replaceNumbers: bool)
    requires qi < |q|
    ensures var n := Step(q, st, qi, replaceNumbers);
            && (n.Verbatim? <==> AdministratorHere(q, st, qi))
            && (n.Stop? && !NoUpper(n.text) <==> CallHere(q, st, qi))
  {
    hide NoUpper, Skip, Change, Copy;
    SkipGoesOn(st, qi, q[qi], |q|);
    var a := Skip(st, qi, q[qi], |q|);
    if a.Go? {
      ChangeStops(q, a.st, qi, replaceNumbers, |q|);
      var b := Change(q, a.st, qi, replaceNumbers, |q|);
      if b.Go? {
        CopyGoesOn(q, b.st, |q|);
      }
    }
  }

  // ---------------------------------------------------------------- whole scans

  /** The outcome has an upper-case letter, if the whole query is what is given. */
  predicate Upper(r: Outcome, whole: string) {
    match r
    case Text(text, _) => !NoUpper(text)
    case Whole => !NoUpper(whole)
    case Crash => false
  }

  /** The scan from qi on reaches n, and there returns an upper-case letter. */
  predicate UpperAt(q: string, st: Scan, qi: nat, n: nat, replaceNumbers: bool, whole: string)
    requires qi <= n < |q|
  {
    var r := Reach(q, st, qi, n, replaceNumbers);
    r.Continue? && (CallHere(q, r.st, n) || (AdministratorHere(q, r.st, n) && !NoUpper(whole)))
  }

  lemma EndLowered(st: Scan)
    requires NoUpper(st.out)
    ensures !Upper(Finish(st), "")
  {
    TrimLowered(st.out);
    DropLowered(Trim(st.out));
  }

  /** An upper-case letter is returned somewhere. */
  lemma {:induction false} UpperFound(q: string, st: Scan, qi: nat, replaceNumbers: bool, whole: string)
    returns (n: nat)
    requires qi <= |q| && NoUpper(st.out) && Sound(st, qi)
    requires Upper(Run(q, st, qi, replaceNumbers), whole)
    ensures qi <= n < |q| && UpperAt(q, st, qi, n, replaceNumbers, whole)
    decreases |q| - qi
  {
    hide NoUpper, Step, Finish, CallHere, AdministratorHere, Sound;
    if qi == |q| {
      EndLowered(st);
      FinishIsText(st);
      assert false;
    } else {
      StepLowered(q, st, qi, replaceNumbers);
      StepStops(q, st, qi, replaceNumbers);
      StepSound(q, st, qi, replaceNumbers);
      var m := Step(q, st, qi, replaceNumbers);
      if m.Continue? {
        n := UpperFound(q, m.st, qi + 1, replaceNumbers, whole);
      } else {
        n := qi;
      }
    }
  }

  lemma FinishIsText(st: Scan)
    ensures Finish(st).Text?
  {}

  lemma UpperReturned(q: string, st: Scan, qi: nat, n: nat, replaceNumbers: bool, whole: string)
    requires qi <= n < |q| && Sound(st, qi) && UpperAt(q, st, qi, n, replaceNumbers, whole)
    ensures Upper(Run(q, st, qi, replaceNumbers), whole)
  {
    hide NoUpper, Step, Sound, Reach, CallHere, AdministratorHere;
    var t := Reach(q, st, qi, n, replaceNumbers).st;
    RunReach(q, st, qi, n, replaceNumbers);
    StepStops(q, t, n, replaceNumbers);
    RunStops(q, t, n, replaceNumbers);
  }

  lemma RunStops(q: string, st: Scan, qi: nat, replaceNumbers: bool)
    requires qi < |q|
    ensures var n := Step(q, st, qi, replaceNumbers);
            && (n.Stop? ==> Run(q, st, qi, replaceNumbers) == Text(n.text, n.over))
            && (n.Verbatim? ==> Run(q, st, qi, replaceNumbers) == Whole)
  {
    hide Step;
  }

  /**
    A fingerprint has an upper-case letter if and only if the scan gets to the bracket of a call whose
    procedure name has one, or to the colon of an administrator command that has one.
   */
  lemma LowerCase(query: string, replaceNumbers: bool)
    ensures Upper(FingerprintOf(query, replaceNumbers), query) <==>
            exists n: nat :: n < |query + " "| && UpperAt(query + " ", START, 0, n, replaceNumbers, query)
  {
    hide NoUpper, Run, UpperAt, Upper, Sound;
    var q := query + " ";
    StartSound();
    assert NoUpper(START.out) by {
      EmptyLowered();
    }
    if Upper(FingerprintOf(query, replaceNumbers), query) {
      var n := UpperFound(q, START, 0, replaceNumbers, query);
      assert n < |query + " "| && UpperAt(query + " ", START, 0, n, replaceNumbers, query);
    }
    forall n: nat | n < |q| && UpperAt(q, START, 0, n, replaceNumbers, query)
      ensures Upper(FingerprintOf(query, replaceNumbers), query)
    {
      UpperReturned(q, START, 0, n, replaceNumbers, query);
    }
  }

  lemma EmptyLowered()
    ensures NoUpper("")
  {}

  /** A query in lower case has a fingerprint in lower case, without exception. */
  lemma LowerStaysLower(query: string, replaceNumbers: bool)
    requires NoUpper(query)
    ensures !Upper(FingerprintOf(query, replaceNumbers), query)
  {
    hide FingerprintOf, Upper, Reach, Skip;
    LowerCase(query, replaceNumbers);
    var q := query + " ";
    assert forall i :: 0 <= i < |query| ==> q[i] == query[i];
  }

  predicate IsLetter(c: char) {
    'a' <= c <= 'z' || 'A' <= c <= 'Z'
  }

  lemma LetterStep(q: string, st: Scan, qi: nat)
    requires qi < |q| && IsLetter(q[qi]) && st.cpTo <= st.cpFrom <= qi && st.sqlState == Unknown
    requires st.s == InWord || ((st.s == Unknown || st.s == InSpace) && st.valueNo == 0 && st.cpFrom == qi)
    ensures Step(q, st, qi, false) == Continue(st.(s := InWord, pr := q[qi]))
  {
    hide OnSpace, OnParen, OnQuote, OnDigit, ToLower, Copied;
  }

  /** The state behind "call ". */
  const CALLED := START.(s := InSpace, pr := ' ', out := "call ", prevWord := "call", cpFrom := 5, cpTo := 4)

  lemma CallEnds(q: string)
    requires q == "call A( "
    ensures Step(q, START.(s := InWord, pr := 'l'), 4, false) == Continue(CALLED)
  {
    hide OnParen, OnQuote, OnDigit, OnMark;
    assert q[0..4] == "call";
    assert ToLower(q[0..4]) == "call";
  }

  lemma CallReturns(q: string, st: Scan)
    requires q == "call A( " && st == CALLED.(s := InWord, pr := 'A')
    ensures Step(q, st, 6, false) == Stop("call A", 0)
  {
    hide OnSpace, OnQuote, OnDigit, OnMark, Copy;
    assert q[5..6] == "A";
  }

  lemma CallSpelled(q: string)
    requires q == "call A( "
    ensures Run(q, START, 0, false) == Run(q, START.(s := InWord, pr := 'l'), 4, false)
  {
    hide Step, Run;
    var st := START.(s := InWord);
    LetterStep(q, START, 0);
    RunOnce(q, START, 0, false);
    LetterStep(q, st.(pr := 'c'), 1);
    RunOnce(q, st.(pr := 'c'), 1, false);
    LetterStep(q, st.(pr := 'a'), 2);
    RunOnce(q, st.(pr := 'a'), 2, false);
    LetterStep(q, st.(pr := 'l'), 3);
    RunOnce(q, st.(pr := 'l'), 3, false);
  }

  /** The name is kept as it is: the example is a call of a procedure with a capital name. */
  lemma CallKeepsCase()
    ensures FingerprintOf("call A(", false) == Text("call A", 0) && !NoUpper("call A")
  {
    hide Step, Run;
    var q := "call A( ";
    assert "call A(" + " " == q;
    CallSpelled(q);
    CallEnds(q);
    RunOnce(q, START.(s := InWord, pr := 'l'), 4, false);
    LetterStep(q, CALLED, 5);
    RunOnce(q, CALLED, 5, false);
    CallReturns(q, CALLED.(s := InWord, pr := 'A'));
    RunStops(q, CALLED.(s := InWord, pr := 'A'), 6, false);
    assert "call A"[5] == 'A';
  }
}
