/**
  Lists of values. Whatever stands between the brackets of a list after VALUES, VALUE or IN, with literals
  and inner brackets, the scan writes "(?+)" for the first list, or "()" if there is nothing in it, and
  nothing for a further list. So two queries that differ only inside a list have the same fingerprint,
  unless it is a first list and one of the two is empty.
 */
module FingerprintLists {
  import opened Fingerprint
  import opened FingerprintLiterals
  import opened FingerprintReach

  // ---------------------------------------------------------------- inside the brackets

  /**
    The text leads from inside `depth` brackets to just before the bracket that closes the outermost one:
    brackets are balanced, those in quoted literals not counted, and no literal is left open.
   */
  predicate Inside(depth: nat, quoted: bool, quote: char, escape: bool, t: string)
    decreases |t|
  {
    if t == "" then depth == 1 && !quoted
    else if quoted then
      if t[0] == quote then Inside(depth, escape, quote, false, t[1..])
      else Inside(depth, true, quote, !escape && t[0] == '\\', t[1..])
    else if IsQuote(t[0]) then Inside(depth, true, t[0], false, t[1..])
    else if t[0] == '(' then Inside(depth + 1, false, quote, false, t[1..])
    else if t[0] == ')' then depth > 1 && Inside(depth - 1, false, quote, false, t[1..])
    else Inside(depth, false, quote, false, t[1..])
  }

  /** What may stand between the brackets of a list. */
  predicate IsValueList(t: string) {
    Inside(1, false, '\'', false, t)
  }

  /** In a list, or in a literal in a list. */
  predicate Listing(st: Scan) {
    st.sqlState == InValues && st.parOpen >= 1 && (st.s == InQuote || (st.s == InValues && !st.escape))
  }

  /** A character of the list is passed over and writes nothing. */
  lemma ListedChar(q: string, st: Scan, qi: nat, n: nat, replaceNumbers: bool) returns (t: Scan)
    requires qi < n <= |q| && Listing(st)
    requires Inside(st.parOpen, st.s == InQuote, st.quoteChar, st.escape, q[qi..n])
    ensures Step(q, st, qi, replaceNumbers) == Continue(t) && Listing(t)
    ensures Inside(t.parOpen, t.s == InQuote, t.quoteChar, t.escape, q[qi + 1..n])
    ensures t == st.(s := t.s, escape := t.escape, cpFrom := t.cpFrom, quoteChar := t.quoteChar, parOpen := t.parOpen,
                     parOpenTotal := t.parOpenTotal)
    ensures t.parOpenTotal >= st.parOpenTotal
  {
    hide Change, Copy, EndValues;
    var b := q[qi..n];
    assert b[0] == q[qi] && b[1..] == q[qi + 1..n];
    t := Skip(st, qi, q[qi], |q|).st;
    if st.s == InValues && IsSpace(q[qi]) {
      assert !IsQuote(q[qi]);
    }
  }

  lemma {:induction false} ListSkipped(q: string, st: Scan, qi: nat, n: nat, replaceNumbers: bool) returns (t: Scan)
    requires qi <= n <= |q| && Listing(st)
    requires Inside(st.parOpen, st.s == InQuote, st.quoteChar, st.escape, q[qi..n])
    ensures Reach(q, st, qi, n, replaceNumbers) == Continue(t) && Listing(t)
    ensures t == st.(s := InValues, escape := false, cpFrom := t.cpFrom, quoteChar := t.quoteChar, parOpen := 1,
                     parOpenTotal := t.parOpenTotal)
    ensures t.parOpenTotal >= st.parOpenTotal
    decreases n - qi
  {
    hide Step;
    if qi == n {
      assert q[qi..n] == "";
      t := st;
    } else {
      hide Inside;
      var u := ListedChar(q, st, qi, n, replaceNumbers);
      t := ListSkipped(q, u, qi + 1, n, replaceNumbers);
    }
  }

  /** What is written for a list. */
  function Written(first: bool, empty: bool): string {
    if !first then "" else if empty then "()" else "(?+)"
  }

  /** The state just behind the list that ends at o. */
  function Ended(st: Scan, o: nat, quoteChar: char, empty: bool): Scan {
    st.(out := st.out + Written(st.valueNo == 0, empty), valueNo := st.valueNo + 1,
        firstPar := if st.valueNo == 0 then 0 else st.firstPar, s := MoreValuesOrUnknown, pr := ')', cpFrom := o + 1,
        parOpen := 0, parOpenTotal := 0, quoteChar := quoteChar, escape := false)
  }

  predicate ListRoom(st: Scan, empty: bool, cap: nat) {
    st.valueNo != 0 || (st.over == 0 && |st.out| + |Written(true, empty)| <= cap)
  }

  lemma ClosingBracket(q: string, st: Scan, o: nat, replaceNumbers: bool)
    requires o < |q| && q[o] == ')' && Listing(st) && st.s == InValues && st.parOpen == 1 && st.parOpenTotal >= 0
    ensures var empty := o - st.firstPar <= 1;
            Step(q, st, o, replaceNumbers) ==
            if ListRoom(st, empty, |q|) then Continue(Ended(st, o, st.quoteChar, empty)) else Panic
  {
    hide Change, Copy;
  }

  /** Just behind the first bracket of a list. */
  predicate OpenList(st: Scan, p: nat) {
    && st.s == InValues && st.sqlState == InValues && st.parOpen == 1 && st.parOpenTotal >= 0 && !st.escape
    && st.firstPar == p - 1
  }

  /** The scan goes over the list, writes what stands for it and leaves it just behind its last bracket. */
  lemma ListCrossed(q: string, st: Scan, p: nat, o: nat, replaceNumbers: bool) returns (c: char)
    requires p <= o < |q| && OpenList(st, p) && Sound(st, p) && IsValueList(q[p..o]) && q[o] == ')'
    ensures ListRoom(st, o == p, |q|) ==>
              && Reach(q, st, p, o + 1, replaceNumbers) == Continue(Ended(st, o, c, o == p))
              && Sound(Ended(st, o, c, o == p), o + 1)
              && Run(q, st, p, replaceNumbers) == Run(q, Ended(st, o, c, o == p), o + 1, replaceNumbers)
    ensures Complete(Run(q, st, p, replaceNumbers)) ==> ListRoom(st, o == p, |q|)
  {
    hide Run, Step, Sound, Reach, Inside, ListRoom, Ended, Written;
    QuoteUnused(1, '\'', st.quoteChar, q[p..o]);
    var t := ListSkipped(q, st, p, o, replaceNumbers);
    c := t.quoteChar;
    RunReach(q, st, p, o, replaceNumbers);
    ClosingBracket(q, t, o, replaceNumbers);
    SameEnd(st, t, o, |q|);
    StepSound(q, t, o, replaceNumbers);
    if Complete(Run(q, st, p, replaceNumbers)) {
      RunStep(q, t, o, replaceNumbers);
    }
    RunOnce(q, t, o, replaceNumbers);
    ReachNext(q, st, p, o, replaceNumbers);
  }

  lemma {:induction false} QuoteUnused(depth: nat, c: char, d: char, t: string)
    requires Inside(depth, false, c, false, t)
    ensures Inside(depth, false, d, false, t)
    decreases |t|
  {
    if t != "" && !IsQuote(t[0]) {
      QuoteUnused(if t[0] == '(' then depth + 1 else if t[0] == ')' then depth - 1 else depth, c, d, t[1..]);
    }
  }

  lemma SameEnd(st: Scan, t: Scan, o: nat, cap: nat)
    requires t == st.(s := InValues, escape := false, cpFrom := t.cpFrom, quoteChar := t.quoteChar, parOpen := 1,
                      parOpenTotal := t.parOpenTotal)
    ensures forall empty :: Ended(t, o, t.quoteChar, empty) == Ended(st, o, t.quoteChar, empty)
    ensures forall empty :: ListRoom(t, empty, cap) == ListRoom(st, empty, cap)
  {}

  // ---------------------------------------------------------------- the last quote does not matter

  /** The same state but for the quote of the last literal, which counts only within a literal. */
  predicate Apart(a: Scan, b: Scan) {
    b == a.(quoteChar := b.quoteChar) && (a.s == InQuote ==> a == b)
  }

  predicate ApartNext(m: Next, n: Next) {
    match (m, n)
    case (Go(t), Go(u)) => Apart(t, u)
    case (Continue(t), Continue(u)) => Apart(t, u)
    case _ => m == n
  }

  lemma EndValuesApart(a: Scan, b: Scan, qi: nat, r: char, cap: nat)
    requires Apart(a, b)
    ensures ApartNext(EndValues(a, qi, r, cap), EndValues(b, qi, r, cap))
  {}

  lemma BracketsApart(a: Scan, b: Scan, qi: nat, r: char)
    requires Apart(a, b)
    ensures Apart(Brackets(a, qi, r), Brackets(b, qi, r))
  {}

  lemma ValuesApart(a: Scan, b: Scan, qi: nat, r: char, cap: nat)
    requires Apart(a, b)
    ensures ApartNext(SkipValues(a, qi, r, cap), SkipValues(b, qi, r, cap))
  {
    hide IsSpace, Brackets, EndValues;
    BracketsApart(a, b, qi, r);
    EndValuesApart(Brackets(a, qi, r), Brackets(b, qi, r), qi, r, cap);
  }

  lemma NumbersApart(a: Scan, b: Scan, qi: nat, r: char, cap: nat)
    requires Apart(a, b)
    ensures ApartNext(SkipNumber(a, qi, r, cap), SkipNumber(b, qi, r, cap))
    ensures ApartNext(SkipNumberInWord(a, qi, r, cap), SkipNumberInWord(b, qi, r, cap))
  {
    hide IsSpace, InNumeral, EndsNumeral, IsDigit;
  }

  lemma BackticksApart(a: Scan, b: Scan, qi: nat, r: char)
    requires Apart(a, b)
    ensures ApartNext(SkipBackticks(a, qi, r), SkipBackticks(b, qi, r))
  {}

  lemma SkipApart(a: Scan, b: Scan, qi: nat, r: char, cap: nat)
    requires Apart(a, b)
    ensures ApartNext(Skip(a, qi, r, cap), Skip(b, qi, r, cap))
  {
    hide IsSpace, SkipValues, SkipQuoted, SkipNumber, SkipNumberInWord, SkipBackticks;
    match a.s {
      case InQuote =>
      case InBackticks => BackticksApart(a, b, qi, r);
      case InValues => ValuesApart(a, b, qi, r, cap);
      case InNumber => NumbersApart(a, b, qi, r, cap);
      case InNumberInWord => NumbersApart(a, b, qi, r, cap);
      case _ =>
    }
  }

  lemma NullApart(a: Scan, b: Scan, qi: nat, comma: bool, cap: nat)
    requires Apart(a, b)
    ensures ApartNext(NullValue(a, qi, comma, cap), NullValue(b, qi, comma, cap))
    ensures ApartNext(DropAsc(a, qi, comma, cap), DropAsc(b, qi, comma, cap))
  {}

  lemma EndWordApart(a: Scan, b: Scan, qi: nat, word: string, cap: nat)
    requires Apart(a, b)
    ensures ApartNext(EndWord(a, qi, word, cap), EndWord(b, qi, word, cap))
  {
    hide NullValue, DropAsc;
    if word == "use" && a.prevWord == "" {
    } else if (word == "null" && a.prevWord != "is" && a.prevWord != "not") || word == "null," {
      NullApart(a, b, qi, word == "null,", cap);
    } else if a.prevWord == "order" && word == "by" {
    } else if a.sqlState == OrderBy && (word == "asc" || word == "asc," || word == "asc ") {
      NullApart(a, b, qi, word == "asc,", cap);
    }
  }

  lemma SpaceApart(q: string, a: Scan, b: Scan, qi: nat, cap: nat)
    requires qi < |q| && Apart(a, b)
    ensures ApartNext(OnSpace(q, a, qi, cap), OnSpace(q, b, qi, cap))
  {
    hide IsSpace, EndWord, ToLower;
    if 0 <= a.cpFrom <= qi {
      EndWordApart(a, b, qi, ToLower(q[a.cpFrom..qi]), cap);
    }
  }

  lemma ParenApart(q: string, a: Scan, b: Scan, qi: nat)
    requires qi < |q| && Apart(a, b)
    ensures ApartNext(OnParen(q, a, qi), OnParen(q, b, qi))
  {
    hide IsList, ToLower;
  }

  lemma MarkApart(a: Scan, b: Scan, qi: nat, r: char)
    requires Apart(a, b)
    ensures Apart(OnMark(a, qi, r), OnMark(b, qi, r))
  {
    assert Apart(OnOther(a, qi), OnOther(b, qi));
    hide OnOther;
    if r == '/' {
    } else if r == '-' {
    } else if r == '.' {
    } else if r == '*' {
    }
  }

  lemma SignsApart(a: Scan, b: Scan, qi: nat, r: char, replaceNumbers: bool)
    requires Apart(a, b)
    ensures Apart(OnDigit(a, qi, replaceNumbers), OnDigit(b, qi, replaceNumbers))
    ensures Apart(OnQuote(a, qi, r), OnQuote(b, qi, r)) && Apart(OnBacktick(a), OnBacktick(b))
    ensures Apart(OnOperator(a, qi), OnOperator(b, qi))
  {}

  lemma ChangeApart(q: string, a: Scan, b: Scan, qi: nat, replaceNumbers: bool, cap: nat)
    requires qi < |q| && Apart(a, b)
    ensures ApartNext(Change(q, a, qi, replaceNumbers, cap), Change(q, b, qi, replaceNumbers, cap))
  {
    hide IsSpace, IsDigit, OnSpace, OnParen, OnMark, OnDigit, OnQuote, OnBacktick, OnOperator;
    SpaceApart(q, a, b, qi, cap);
    ParenApart(q, a, b, qi);
    MarkApart(a, b, qi, q[qi]);
    SignsApart(a, b, qi, q[qi], replaceNumbers);
  }

  lemma CopyApart(q: string, a: Scan, b: Scan, cap: nat)
    requires Apart(a, b)
    ensures ApartNext(Copy(q, a, cap), Copy(q, b, cap))
  {
    hide IsList, ToLower;
  }

  lemma StepApart(q: string, a: Scan, b: Scan, qi: nat, replaceNumbers: bool)
    requires qi < |q| && Apart(a, b)
    ensures ApartNext(Step(q, a, qi, replaceNumbers), Step(q, b, qi, replaceNumbers))
  {
    hide Skip, Change, Copy;
    SkipApart(a, b, qi, q[qi], |q|);
    var m, n := Skip(a, qi, q[qi], |q|), Skip(b, qi, q[qi], |q|);
    if m.Go? {
      ChangeApart(q, m.st, n.st, qi, replaceNumbers, |q|);
      var u, v := Change(q, m.st, qi, replaceNumbers, |q|), Change(q, n.st, qi, replaceNumbers, |q|);
      if u.Go? {
        CopyApart(q, u.st, v.st, |q|);
      }
    }
  }

  lemma {:induction false} RunApart(q: string, a: Scan, b: Scan, qi: nat, replaceNumbers: bool)
    requires qi <= |q| && Apart(a, b)
    ensures Run(q, a, qi, replaceNumbers) == Run(q, b, qi, replaceNumbers)
    decreases |q| - qi
  {
    hide Step, Trim, DropNul;
    if qi < |q| {
      StepApart(q, a, b, qi, replaceNumbers);
      var m, n := Step(q, a, qi, replaceNumbers), Step(q, b, qi, replaceNumbers);
      if m.Go? || m.Continue? {
        RunApart(q, m.st, n.st, qi + 1, replaceNumbers);
      }
    }
  }

  // ---------------------------------------------------------------- replacing the contents of a list

  function Listed(before: string, list: string, after: string): string {
    before + "(" + list + ")" + after
  }

  /** In the scan of the query, the bracket after `before` opens a list of values. */
  predicate OpensList(before: string, list: string, after: string, replaceNumbers: bool) {
    var n := Reach(Listed(before, list, after) + " ", START, 0, |before| + 1, replaceNumbers);
    n.Continue? && OpenList(n.st, |before| + 1)
  }

  /** And it is the first list after the word. */
  predicate FirstList(before: string, list: string, after: string, replaceNumbers: bool) {
    var n := Reach(Listed(before, list, after) + " ", START, 0, |before| + 1, replaceNumbers);
    n.Continue? && n.st.valueNo == 0
  }

  lemma ListedParts(before: string, list: string, after: string)
    ensures var q := Listed(before, list, after) + " ";
            var p := |before| + 1;
            && |q| == p + |list| + |after| + 2 && q[..|before| + 1] == before + "(" && q[|before|] == '('
            && q[p..p + |list|] == list && q[p + |list|] == ')' && q[p + |list| + 1..] == after + " "
  {}

  /** The state in which the bracket opens the list. */
  lemma ListOpened(before: string, list: string, after: string, replaceNumbers: bool) returns (st: Scan)
    requires OpensList(before, list, after, replaceNumbers)
    requires Complete(FingerprintOf(Listed(before, list, after), replaceNumbers))
    ensures var q := Listed(before, list, after) + " ";
            && Reach(q, START, 0, |before| + 1, replaceNumbers) == Continue(st)
            && Run(q, st, |before| + 1, replaceNumbers) == Run(q, START, 0, replaceNumbers)
    ensures OpenList(st, |before| + 1) && Sound(st, |before| + 1) && st.over == 0
    ensures |before| >= 2 && st.cpTo <= |before|
    ensures FirstList(before, list, after, replaceNumbers) <==> st.valueNo == 0
  {
    hide Run, Sound, Reach, Step;
    var q := Listed(before, list, after) + " ";
    ListedParts(before, list, after);
    st := Reach(q, START, 0, |before| + 1, replaceNumbers).st;
    StartSound();
    RunReach(q, START, 0, |before| + 1, replaceNumbers);
    ReachDeep(q, START, 0, |before| + 1, replaceNumbers);
    RunOver(q, st, |before| + 1, replaceNumbers);
    ReachLast(q, START, 0, |before|, replaceNumbers);
    RunReach(q, START, 0, |before|, replaceNumbers);
    BracketStep(q, Reach(q, START, 0, |before|, replaceNumbers).st, |before|, replaceNumbers);
  }

  /** At an opening bracket nothing behind it is marked for copying. */
  lemma BracketStep(q: string, st: Scan, qi: nat, replaceNumbers: bool)
    requires qi < |q| && Sound(st, qi) && q[qi] == '('
    ensures var n := Step(q, st, qi, replaceNumbers);
            n.Continue? ==> n.st.cpTo <= qi
  {
    hide Change, Copy, SkipValues, Emit;
    SkipSound(st, qi, q[qi], |q|);
    if st.s == InValues {
      ValuesSound(st, qi, q[qi], |q|);
    }
    var a := Skip(st, qi, q[qi], |q|);
    if a.Go? {
      ChangeSound(q, a.st, qi, replaceNumbers, |q|);
      var b := Change(q, a.st, qi, replaceNumbers, |q|);
      if b.Go? {
        CopySound(q, b.st, |q|);
      }
    }
  }

  lemma EndedAlike(st: Scan, p: nat, o1: nat, o2: nat, c: char, empty: bool)
    requires 3 <= p <= o1 && p <= o2 && st.over == 0 && st.cpTo < p && 0 <= st.firstPar < p
    ensures var fr := Frame(p, o1 + 1, o2 + 1);
            && fr.Ok() && Alike(fr, Ended(st, o1, c, empty), Ended(st, o2, c, empty))
            && Near(fr, Ended(st, o1, c, empty), 0)
  {}

  lemma ListReplaced(before: string, list1: string, list2: string, after: string, replaceNumbers: bool)
    requires IsValueList(list1) && IsValueList(list2) && |list1| <= |list2|
    requires OpensList(before, list1, after, replaceNumbers)
    requires FirstList(before, list1, after, replaceNumbers) ==> (list1 == "" <==> list2 == "")
    requires Complete(FingerprintOf(Listed(before, list1, after), replaceNumbers))
    ensures FingerprintOf(Listed(before, list2, after), replaceNumbers)
         == FingerprintOf(Listed(before, list1, after), replaceNumbers)
  {
    hide Run, Sound, Reach, Step, Ended, Alike, Near, OpensList, FirstList, Listed, Frame.Ok, IsValueList, ListRoom;
    var q1, q2 := Listed(before, list1, after) + " ", Listed(before, list2, after) + " ";
    var p := |before| + 1;
    var o1, o2 := p + |list1|, p + |list2|;
    var st := ListOpened(before, list1, after, replaceNumbers);
    ListedParts(before, list1, after);
    ListedParts(before, list2, after);
    StartSound();
    PrefixAlike(q1, q2, START, 0, p, replaceNumbers);
    RunReach(q2, START, 0, p, replaceNumbers);
    var c1 := ListCrossed(q1, st, p, o1, replaceNumbers);
    var c2 := ListCrossed(q2, st, p, o2, replaceNumbers);
    var empty := list1 == "";
    MoreListRoom(st, o1 == p, o2 == p, |q1|, |q2|);
    Requoted(st, o2, c2, c1, o2 == p);
    RunApart(q2, Ended(st, o2, c2, o2 == p), Ended(st, o2, c1, o2 == p), o2 + 1, replaceNumbers);
    EmptinessMatters(st, o2, c1, o1 == p, o2 == p);
    SoundPar(st, p);
    EndedAlike(st, p, o1, o2, c1, o1 == p);
    SoundQuote(st, o2, c2, c1, o2 == p);
    RunAlike(Frame(p, o1 + 1, o2 + 1), q1, q2, Ended(st, o1, c1, o1 == p), Ended(st, o2, c1, o1 == p), 0,
             replaceNumbers);
  }

  lemma MoreListRoom(st: Scan, e1: bool, e2: bool, c1: nat, c2: nat)
    requires c1 <= c2 && ListRoom(st, e1, c1) && (st.valueNo == 0 ==> e1 == e2)
    ensures ListRoom(st, e2, c2)
  {}

  lemma Requoted(st: Scan, o: nat, c: char, d: char, empty: bool)
    ensures Apart(Ended(st, o, c, empty), Ended(st, o, d, empty))
  {}

  lemma SoundQuote(st: Scan, o: nat, c: char, d: char, empty: bool)
    requires Sound(Ended(st, o, c, empty), o + 1)
    ensures Sound(Ended(st, o, d, empty), o + 1)
  {}

  /** Whether a further list is empty does not matter. */
  lemma EmptinessMatters(st: Scan, o: nat, c: char, e1: bool, e2: bool)
    requires st.valueNo == 0 ==> e1 == e2
    ensures Ended(st, o, c, e1) == Ended(st, o, c, e2)
  {}

  /** The lists have the same effect: it is not a first list, or both are empty, or neither is. */
  predicate SameEffect(before: string, list1: string, list2: string, after: string, replaceNumbers: bool) {
    FirstList(before, list1, after, replaceNumbers) ==> (list1 == "" <==> list2 == "")
  }

  /**
    For any two contents of a list that have the same effect: if the scan of one query is complete, the
    fingerprints are the same if and only if the scan of the other query is complete too.
   */
  lemma ListInsensitive(before: string, list1: string, list2: string, after: string, replaceNumbers: bool)
    requires IsValueList(list1) && IsValueList(list2) && OpensList(before, list1, after, replaceNumbers)
    requires SameEffect(before, list1, list2, after, replaceNumbers)
    requires Complete(FingerprintOf(Listed(before, list1, after), replaceNumbers))
    ensures FingerprintOf(Listed(before, list1, after), replaceNumbers)
         == FingerprintOf(Listed(before, list2, after), replaceNumbers)
        <==> Complete(FingerprintOf(Listed(before, list2, after), replaceNumbers))
  {
    hide FingerprintOf, OpensList, FirstList, Listed, IsValueList;
    if |list1| <= |list2| {
      ListReplaced(before, list1, list2, after, replaceNumbers);
    } else if Complete(FingerprintOf(Listed(before, list2, after), replaceNumbers)) {
      OpensListToo(before, list1, list2, after, replaceNumbers);
      ListReplaced(before, list2, list1, after, replaceNumbers);
    }
  }

  lemma OpensListToo(before: string, list1: string, list2: string, after: string, replaceNumbers: bool)
    requires OpensList(before, list1, after, replaceNumbers)
    requires Complete(FingerprintOf(Listed(before, list1, after), replaceNumbers))
    requires Complete(FingerprintOf(Listed(before, list2, after), replaceNumbers))
    ensures OpensList(before, list2, after, replaceNumbers)
    ensures FirstList(before, list2, after, replaceNumbers) <==> FirstList(before, list1, after, replaceNumbers)
  {
    hide FingerprintOf, Reach, Listed;
    SamePrefix(before, list1, after, list2, after, replaceNumbers);
  }

  /** Up to the bracket, all complete scans are the same. */
  lemma SamePrefix(before: string, list1: string, after1: string, list2: string, after2: string, replaceNumbers: bool)
    requires Complete(FingerprintOf(Listed(before, list1, after1), replaceNumbers))
    requires Complete(FingerprintOf(Listed(before, list2, after2), replaceNumbers))
    ensures var q1, q2 := Listed(before, list1, after1) + " ", Listed(before, list2, after2) + " ";
            var m, n := Reach(q1, START, 0, |before| + 1, replaceNumbers), Reach(q2, START, 0, |before| + 1, replaceNumbers);
            m == n || (m.Stop? && n.Stop?)
  {
    hide Run, Sound, Reach, Step, Listed;
    ListedParts(before, list1, after1);
    ListedParts(before, list2, after2);
    StartSound();
    var q1, q2 := Listed(before, list1, after1) + " ", Listed(before, list2, after2) + " ";
    if |q1| <= |q2| {
      PrefixAlike(q1, q2, START, 0, |before| + 1, replaceNumbers);
    } else {
      PrefixAlike(q2, q1, START, 0, |before| + 1, replaceNumbers);
    }
  }

  // ---------------------------------------------------------------- the boundary

  function Spaces(n: nat): (t: string)
    ensures |t| == n && forall i :: 0 <= i < n ==> t[i] == ' '
  {
    seq(n, _ => ' ')
  }

  lemma {:induction false} SpacesSkipped(q: string, st: Scan, qi: nat, replaceNumbers: bool)
    requires qi <= |q| && st.s == MoreValuesOrUnknown && st.pr == ' ' && forall i :: qi <= i < |q| ==> q[i] == ' '
    ensures Run(q, st, qi, replaceNumbers) == Finish(st)
    decreases |q| - qi
  {
    hide Change, Copy, Trim, DropNul;
    if qi < |q| {
      var t := st.(cpFrom := qi + 1);
      assert Step(q, st, qi, replaceNumbers) == Continue(t);
      SpacesSkipped(q, t, qi + 1, replaceNumbers);
      assert Finish(t) == Finish(st);
    }
  }

  /** Only spaces follow a list: they add nothing to the fingerprint. */
  lemma SpacesAfter(q: string, st: Scan, qi: nat, replaceNumbers: bool)
    requires qi < |q| && st.s == MoreValuesOrUnknown && st.valueNo == 1 && st.pr == ')' && st.cpTo <= st.cpFrom
    requires (forall i :: qi <= i < |q| ==> q[i] == ' ') && st.over == 0 && |st.out| < |q|
    requires st.out != "" && st.out[|st.out| - 1] == ')'
    ensures Run(q, st, qi, replaceNumbers) == Text(DropNul(st.out), 0)
  {
    hide Run, DropNul;
    var t := st.(out := st.out + " ", pr := ' ');
    FirstSpace(q, st, qi, replaceNumbers);
    RunOnce(q, st, qi, replaceNumbers);
    SpacesSkipped(q, t, qi + 1, replaceNumbers);
    assert t.out[..|t.out| - 1] == st.out;
    assert Trim(st.out) == st.out;
    assert Trim(t.out) == Trim(t.out[..|t.out| - 1]);
  }

  lemma FirstSpace(q: string, st: Scan, qi: nat, replaceNumbers: bool)
    requires qi < |q| && q[qi] == ' ' && st.s == MoreValuesOrUnknown && st.valueNo == 1 && st.pr == ')'
    requires st.over == 0 && |st.out| < |q| && st.cpTo <= st.cpFrom
    ensures Step(q, st, qi, replaceNumbers) == Continue(st.(out := st.out + " ", pr := ' '))
  {}

  /** If nothing but enough spaces follows a first list, the query ends with what is written for the list. */
  lemma ListAtEnd(before: string, list: string, after: string, st: Scan, replaceNumbers: bool)
    requires IsValueList(list) && OpensList(before, list, after, replaceNumbers)
    requires FirstList(before, list, after, replaceNumbers)
    requires Complete(FingerprintOf(Listed(before, list, after), replaceNumbers))
    requires Reach(Listed(before, list, after) + " ", START, 0, |before| + 1, replaceNumbers) == Continue(st)
    ensures var end := Spaces(|after| + 1);
            && OpensList(before, list, end, replaceNumbers)
            && FingerprintOf(Listed(before, list, end), replaceNumbers) ==
               Text(DropNul(st.out + Written(true, list == "")), 0)
  {
    hide Run, Sound, Reach, Step, IsValueList, Listed, DropNul, ListRoom;
    var end := Spaces(|after| + 1);
    var q1, q2 := Listed(before, list, after) + " ", Listed(before, list, end) + " ";
    var p, o := |before| + 1, |before| + 1 + |list|;
    var s1 := ListOpened(before, list, after, replaceNumbers);
    ListedParts(before, list, after);
    ListedParts(before, list, end);
    StartSound();
    PrefixAlike(q1, q2, START, 0, p, replaceNumbers);
    RunReach(q2, START, 0, p, replaceNumbers);
    var c1 := ListCrossed(q1, st, p, o, replaceNumbers);
    var c := ListCrossed(q2, st, p, o, replaceNumbers);
    MoreListRoom(st, o == p, o == p, |q1|, |q2|);
    RoomLeft(st, o == p, |q1|);
    var t := Ended(st, o, c, o == p);
    assert forall i :: o + 1 <= i < |q2| ==> q2[i] == ' ' by {
      assert forall i :: o + 1 <= i < |q2| ==> q2[i] == q2[o + 1..][i - o - 1];
    }
    SpacesAfter(q2, t, o + 1, replaceNumbers);
  }

  lemma RoomLeft(st: Scan, empty: bool, cap: nat)
    requires ListRoom(st, empty, cap) && st.valueNo == 0
    ensures |st.out + Written(true, empty)| <= cap
  {}

  lemma {:induction false} DropNulJoin(a: string, b: string)
    ensures DropNul(a + b) == DropNul(a) + DropNul(b)
    decreases |a|
  {
    hide DropNul;
    if a == "" {
      DropNulNone();
      assert a + b == b;
    } else {
      var first := if a[0] == '\0' then "" else [a[0]];
      DropNulJoin(a[1..], b);
      DropNulOnce(a, first);
      DropNulOnce(a + b, first);
      assert (a + b)[1..] == a[1..] + b;
    }
  }

  lemma DropNulNone()
    ensures DropNul("") == ""
  {}

  lemma DropNulOnce(a: string, first: string)
    requires a != "" && first == if a[0] == '\0' then "" else [a[0]]
    ensures DropNul(a) == first + DropNul(a[1..])
  {}

  lemma WrittenDiffer(t: string)
    ensures DropNul(t + "()") != DropNul(t + "(?+)")
  {
    DropNulJoin(t, "()");
    DropNulJoin(t, "(?+)");
    assert |DropNul("()")| == 2 by {
      assert "()"[1..] == ")" && ")"[1..] == "";
    }
    assert |DropNul("(?+)")| == 4 by {
      assert "(?+)"[1..] == "?+)" && "?+)"[1..] == "+)" && "+)"[1..] == ")" && ")"[1..] == "";
      assert DropNul("+)") == "+)" && DropNul("?+)") == "?+)";
    }
  }

  /** The bracket opens a list, and neither scan loses output. */
  predicate BothListed(before: string, list1: string, list2: string, after: string, replaceNumbers: bool) {
    && OpensList(before, list1, after, replaceNumbers)
    && Complete(FingerprintOf(Listed(before, list1, after), replaceNumbers))
    && Complete(FingerprintOf(Listed(before, list2, after), replaceNumbers))
  }

  predicate SameListed(before: string, list1: string, list2: string, after: string, replaceNumbers: bool) {
    FingerprintOf(Listed(before, list1, after), replaceNumbers)
    == FingerprintOf(Listed(before, list2, after), replaceNumbers)
  }

  /**
    Two contents of a list are interchangeable in front of every continuation of the query if and only if
    the list is not the first one, or both are empty, or neither is.
   */
  lemma ListBoundary(before: string, list1: string, list2: string, after: string, replaceNumbers: bool)
    requires IsValueList(list1) && IsValueList(list2) && BothListed(before, list1, list2, after, replaceNumbers)
    ensures (forall end :: BothListed(before, list1, list2, end, replaceNumbers) ==>
                           SameListed(before, list1, list2, end, replaceNumbers))
            <==> SameEffect(before, list1, list2, after, replaceNumbers)
  {
    hide FingerprintOf, OpensList, FirstList, Listed, IsValueList, Complete;
    if SameEffect(before, list1, list2, after, replaceNumbers) {
      forall end | BothListed(before, list1, list2, end, replaceNumbers)
        ensures SameListed(before, list1, list2, end, replaceNumbers)
      {
        SameFirst(before, list1, after, end, replaceNumbers);
        ListInsensitive(before, list1, list2, end, replaceNumbers);
      }
    } else {
      var end := Spaces(|after| + 1);
      ListsDiffer(before, list1, list2, after, replaceNumbers);
      assert BothListed(before, list1, list2, end, replaceNumbers);
      assert !SameListed(before, list1, list2, end, replaceNumbers);
    }
  }

  lemma ListsDiffer(before: string, list1: string, list2: string, after: string, replaceNumbers: bool)
    requires IsValueList(list1) && IsValueList(list2) && BothListed(before, list1, list2, after, replaceNumbers)
    requires !SameEffect(before, list1, list2, after, replaceNumbers)
    ensures var end := Spaces(|after| + 1);
            && BothListed(before, list1, list2, end, replaceNumbers)
            && !SameListed(before, list1, list2, end, replaceNumbers)
  {
    hide FingerprintOf, Reach, Listed, IsValueList, DropNul;
    ListedParts(before, list1, after);
    var n := Reach(Listed(before, list1, after) + " ", START, 0, |before| + 1, replaceNumbers);
    SamePrefix(before, list1, after, list2, after, replaceNumbers);
    ListAtEnd(before, list1, after, n.st, replaceNumbers);
    ListAtEnd(before, list2, after, n.st, replaceNumbers);
    WrittenDiffer(n.st.out);
  }

  lemma SameFirst(before: string, list: string, after1: string, after2: string, replaceNumbers: bool)
    requires Complete(FingerprintOf(Listed(before, list, after1), replaceNumbers))
    requires Complete(FingerprintOf(Listed(before, list, after2), replaceNumbers))
    ensures FirstList(before, list, after1, replaceNumbers) <==> FirstList(before, list, after2, replaceNumbers)
  {
    hide FingerprintOf, Reach, Listed;
    SamePrefix(before, list, after1, list, after2, replaceNumbers);
  }
}
