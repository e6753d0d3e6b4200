/**
  Two queries that differ only inside a quoted literal have the same fingerprint. The two scans are
  compared position by position: in the part that the queries share before the literal they agree,
  inside the literal only the escape flag moves, and after it every offset of one scan is the offset
  of the other shifted by the difference of the lengths, except for offsets left from before.
 */
module FingerprintLiterals {
  import opened Fingerprint

  /** Where the literal begins, and where the text after it begins in either query. */
  datatype Frame = Frame(p: nat, o1: nat, o2: nat) {
    predicate Ok() {
      o1 == o2 || (0 < p < o1 && p < o2 && 2 < o1 && 2 < o2)
    }

    /** The text after the literal is so far on that no offset near it is among the first three. */
    predicate Far() {
      o1 == o2 || (4 < o1 && 4 < o2)
    }

    /**
      The same place: before the literal, or as far into the text after it. The loop compares an offset
      with the constant 2, so offsets after the literal must agree on which side of it they are.
     */
    predicate Same(x1: int, x2: int) {
      || (x1 == x2 && (x1 < p || o1 == o2))
      || (x1 - o1 == x2 - o2 && x1 - o1 >= -2 && (x1 > 2 <==> x2 > 2))
    }

    predicate SameFrom(x1: int, x2: int) {
      x1 - o1 == x2 - o2 && x1 >= o1
    }
  }

  /** The variables that hold no position. */
  predicate SameRest(a: Scan, b: Scan) {
    && a.out == b.out && a.prevWord == b.prevWord && a.pr == b.pr && a.s == b.s && a.sqlState == b.sqlState
    && a.quoteChar == b.quoteChar && a.addSpace == b.addSpace && a.escape == b.escape
    && a.parOpen == b.parOpen && a.parOpenTotal == b.parOpenTotal && a.valueNo == b.valueNo
  }

  predicate Alike(fr: Frame, a: Scan, b: Scan) {
    && a.over == 0 && b.over == 0
    && fr.SameFrom(a.cpFrom, b.cpFrom) && fr.Same(a.cpTo, b.cpTo) && fr.Same(a.firstPar, b.firstPar)
    && SameRest(a, b)
  }

  /** Neither an index out of range nor output lost. */
  predicate Alive(n: Next) {
    match n
    case Go(t) => t.over == 0
    case Continue(t) => t.over == 0
    case Stop(_, over) => over == 0
    case Verbatim => false
    case Panic => false
  }

  predicate AlikeNext(fr: Frame, a: Next, b: Next) {
    match (a, b)
    case (Go(t), Go(u)) => Alike(fr, t, u)
    case (Continue(t), Continue(u)) => Alike(fr, t, u)
    case (Stop(t, m), Stop(u, n)) => t == u && m == n == 0
    case _ => false
  }

  /** An offset into the text after the literal, or up to two before it, is the same place in both scans. */
  lemma Here(fr: Frame, k: nat, j: int)
    requires fr.Ok() && -2 <= j && (0 <= k + j || fr.Far())
    ensures fr.Same(fr.o1 + k + j, fr.o2 + k + j)
    ensures j >= 0 ==> fr.SameFrom(fr.o1 + k + j, fr.o2 + k + j)
  {}

  // ---------------------------------------------------------------- output

  lemma EmitAlike(fr: Frame, a: Scan, b: Scan, c: char, c1: nat, c2: nat)
    requires Alike(fr, a, b) && c1 <= c2 && Alive(Emit(a, c, c1))
    ensures Emit(a, c, c1).Go? && Emit(b, c, c2).Go? && Alike(fr, Emit(a, c, c1).st, Emit(b, c, c2).st)
  {}

  lemma EmitAllAlike(fr: Frame, a: Scan, b: Scan, w: string, c1: nat, c2: nat)
    requires Alike(fr, a, b) && c1 <= c2 && Alive(EmitAll(a, w, c1))
    ensures EmitAll(a, w, c1).Go? && EmitAll(b, w, c2).Go? && Alike(fr, EmitAll(a, w, c1).st, EmitAll(b, w, c2).st)
  {}

  lemma EmitIfRoomAlike(fr: Frame, a: Scan, b: Scan, c: char, c1: nat, c2: nat)
    requires Alike(fr, a, b) && c1 <= c2 && EmitIfRoom(a, c, c1).over == 0
    ensures Alike(fr, EmitIfRoom(a, c, c1), EmitIfRoom(b, c, c2))
  {}

  // ---------------------------------------------------------------- 1. skipping

  lemma QuotedAlike(fr: Frame, a: Scan, b: Scan, k: nat, r: char, c1: nat, c2: nat)
    requires c1 <= c2 && fr.Ok() && Alike(fr, a, b)
    requires Alive(SkipQuoted(a, fr.o1 + k, r, c1))
    ensures AlikeNext(fr, SkipQuoted(a, fr.o1 + k, r, c1), SkipQuoted(b, fr.o2 + k, r, c2))
  {
    hide Frame.Same, Frame.SameFrom, Emit;
    if r == a.quoteChar && !a.escape && a.sqlState != InValues {
      var t, u := a.(escape := false, cpFrom := fr.o1 + k + 1), b.(escape := false, cpFrom := fr.o2 + k + 1);
      Here(fr, k, 1);
      EmitAlike(fr, t, u, '?', c1, c2);
    }
    Here(fr, k, 1);
  }

  lemma NumberInWordAlike(fr: Frame, a: Scan, b: Scan, k: nat, r: char, c1: nat, c2: nat)
    requires c1 <= c2 && fr.Ok() && Alike(fr, a, b)
    requires Alive(SkipNumberInWord(a, fr.o1 + k, r, c1))
    ensures AlikeNext(fr, SkipNumberInWord(a, fr.o1 + k, r, c1), SkipNumberInWord(b, fr.o2 + k, r, c2))
  {
    hide IsSpace;
  }

  lemma NumberAlike(fr: Frame, a: Scan, b: Scan, k: nat, r: char, c1: nat, c2: nat)
    requires c1 <= c2 && fr.Ok() && Alike(fr, a, b)
    requires Alive(SkipNumber(a, fr.o1 + k, r, c1))
    ensures AlikeNext(fr, SkipNumber(a, fr.o1 + k, r, c1), SkipNumber(b, fr.o2 + k, r, c2))
  {
    hide InNumeral, EndsNumeral, Frame.Same, Frame.SameFrom, Emit;
    Here(fr, k, 0);
    if !InNumeral(r) && !EndsNumeral(r) && a.sqlState != InMySQLCode {
      EmitAlike(fr, a, b, '?', c1, c2);
    }
  }

  /** The first bracket is either shifted with the position or far behind it in both scans. */
  lemma EndValuesAlike(fr: Frame, a: Scan, b: Scan, k: nat, r: char, c1: nat, c2: nat)
    requires c1 <= c2 && fr.Ok() && Alike(fr, a, b)
    requires Alive(EndValues(a, fr.o1 + k, r, c1))
    ensures AlikeNext(fr, EndValues(a, fr.o1 + k, r, c1), EndValues(b, fr.o2 + k, r, c2))
  {
    hide EmitAll;
    assert fr.o1 + k - a.firstPar > 1 <==> fr.o2 + k - b.firstPar > 1;
    var w := if fr.o1 + k - a.firstPar > 1 then "(?+)" else "()";
    if a.valueNo == 0 {
      var t, u := a.(valueNo := 1, firstPar := 0), b.(valueNo := 1, firstPar := 0);
      assert Alike(fr, t, u);
      EmitAllAlike(fr, t, u, w, c1, c2);
    }
  }

  lemma BracketsAlike(fr: Frame, a: Scan, b: Scan, k: nat, r: char)
    requires fr.Ok() && Alike(fr, a, b)
    ensures Alike(fr, Brackets(a, fr.o1 + k, r), Brackets(b, fr.o2 + k, r))
    ensures Brackets(a, fr.o1 + k, r).s == a.s
  {
    hide Frame.Same, Frame.SameFrom;
    Here(fr, k, 0);
  }

  lemma ValuesAlike(fr: Frame, a: Scan, b: Scan, k: nat, r: char, c1: nat, c2: nat)
    requires c1 <= c2 && fr.Ok() && Alike(fr, a, b)
    requires Alive(SkipValues(a, fr.o1 + k, r, c1))
    ensures AlikeNext(fr, SkipValues(a, fr.o1 + k, r, c1), SkipValues(b, fr.o2 + k, r, c2))
  {
    hide EndValues, IsSpace, Brackets, Frame.Same, Frame.SameFrom;
    if r != '\'' && r != '"' && !IsSpace(r) {
      var t, u := Brackets(a, fr.o1 + k, r), Brackets(b, fr.o2 + k, r);
      BracketsAlike(fr, a, b, k, r);
      if t.parOpen <= 0 && t.parOpenTotal != 0 {
        EndValuesAlike(fr, t, u, k, r, c1, c2);
      }
    }
  }

  lemma SkipAlike(fr: Frame, a: Scan, b: Scan, k: nat, r: char, c1: nat, c2: nat)
    requires c1 <= c2 && fr.Ok() && Alike(fr, a, b)
    requires Alive(Skip(a, fr.o1 + k, r, c1))
    ensures AlikeNext(fr, Skip(a, fr.o1 + k, r, c1), Skip(b, fr.o2 + k, r, c2))
  {
    hide SkipQuoted, SkipNumberInWord, SkipNumber, SkipValues, IsSpace, Frame.Same, Frame.SameFrom;
    Here(fr, k, 1);
    match a.s {
      case InQuote => QuotedAlike(fr, a, b, k, r, c1, c2);
      case InNumberInWord => NumberInWordAlike(fr, a, b, k, r, c1, c2);
      case InNumber => NumberAlike(fr, a, b, k, r, c1, c2);
      case InValues => ValuesAlike(fr, a, b, k, r, c1, c2);
      case _ =>
    }
  }

  // ---------------------------------------------------------------- 2. changing state

  /** The queries agree from their places in the frame up to and including the current position. */
  predicate SameText(fr: Frame, q1: string, q2: string, k: nat) {
    && fr.o1 + k < |q1| && fr.o2 + k < |q2|
    && q1[fr.o1..fr.o1 + k + 1] == q2[fr.o2..fr.o2 + k + 1]
  }

  lemma SliceAlike(fr: Frame, q1: string, q2: string, k: nat, x: nat, y: nat)
    requires SameText(fr, q1, q2, k) && x <= y <= k
    ensures q1[fr.o1 + x..fr.o1 + y] == q2[fr.o2 + x..fr.o2 + y]
  {
    SubSlice(q1, fr.o1, fr.o1 + k + 1, x, y);
    SubSlice(q2, fr.o2, fr.o2 + k + 1, x, y);
  }

  lemma SubSlice(q: string, from: nat, to: nat, x: nat, y: nat)
    requires from <= to <= |q| && x <= y <= to - from
    ensures q[from..to][x..y] == q[from + x..from + y]
  {
    var u, v := q[from..to][x..y], q[from + x..from + y];
    assert |u| == |v|;
    forall i | 0 <= i < |u|
      ensures u[i] == v[i]
    {
      assert u[i] == q[from..to][x + i];
    }
  }

  lemma CharAlike(fr: Frame, q1: string, q2: string, k: nat)
    requires SameText(fr, q1, q2, k)
    ensures q1[fr.o1 + k] == q2[fr.o2 + k]
  {
    assert q1[fr.o1 + k] == q1[fr.o1..fr.o1 + k + 1][k];
    assert q2[fr.o2 + k] == q2[fr.o2..fr.o2 + k + 1][k];
  }

  /**
    A sign or a dash that the scan is just behind has been read after the literal, unless the literal
    is far from the beginning anyway.
   */
  predicate Near(fr: Frame, st: Scan, k: nat) {
    fr.Far() || ((st.pr == '-' || st.s == OpOrNumber ==> k >= 1) && (st.s == InDash ==> k >= 2))
  }

  lemma DigitAlike(fr: Frame, a: Scan, b: Scan, k: nat, replaceNumbers: bool)
    requires fr.Ok() && Alike(fr, a, b) && Near(fr, a, k)
    ensures Alike(fr, OnDigit(a, fr.o1 + k, replaceNumbers), OnDigit(b, fr.o2 + k, replaceNumbers))
  {
    hide Frame.Same, Frame.SameFrom, Frame.Ok, Frame.Far;
    Here(fr, k, 0);
    if a.s == OpOrNumber {
      Here(fr, k, -1);
    }
  }

  lemma NullAlike(fr: Frame, a: Scan, b: Scan, k: nat, comma: bool, c1: nat, c2: nat)
    requires c1 <= c2 && fr.Ok() && Alike(fr, a, b)
    requires Alive(NullValue(a, fr.o1 + k, comma, c1))
    ensures AlikeNext(fr, NullValue(a, fr.o1 + k, comma, c1), NullValue(b, fr.o2 + k, comma, c2))
  {
    hide Frame.Same, Frame.SameFrom, EmitAll;
    var w := if comma then "?," else "?";
    AllKeepsOver(a, w, c1);
    AllKeepsOver(b, w, c2);
    EmitAllAlike(fr, a, b, w, c1, c2);
    EmitIfRoomAlike(fr, EmitAll(a, w, c1).st, EmitAll(b, w, c2).st, ' ', c1, c2);
    Here(fr, k, 1);
  }

  lemma AllKeepsOver(a: Scan, w: string, cap: nat)
    ensures EmitAll(a, w, cap).Go? ==> EmitAll(a, w, cap).st.over == 0
    ensures EmitAll(a, w, cap).Go? || EmitAll(a, w, cap).Panic?
  {}

  lemma AscAlike(fr: Frame, a: Scan, b: Scan, k: nat, comma: bool, c1: nat, c2: nat)
    requires c1 <= c2 && fr.Ok() && Alike(fr, a, b)
    requires Alive(DropAsc(a, fr.o1 + k, comma, c1))
    ensures AlikeNext(fr, DropAsc(a, fr.o1 + k, comma, c1), DropAsc(b, fr.o2 + k, comma, c2))
  {
    hide Frame.Same, Frame.SameFrom;
    Here(fr, k, 0);
  }

  lemma EndWordAlike(fr: Frame, a: Scan, b: Scan, k: nat, word: string, c1: nat, c2: nat)
    requires c1 <= c2 && fr.Ok() && Alike(fr, a, b)
    requires Alive(EndWord(a, fr.o1 + k, word, c1))
    ensures AlikeNext(fr, EndWord(a, fr.o1 + k, word, c1), EndWord(b, fr.o2 + k, word, c2))
  {
    hide Frame.Same, Frame.SameFrom, NullValue, DropAsc;
    Here(fr, k, 0);
    if word == "use" && a.prevWord == "" {
    } else if (word == "null" && a.prevWord != "is" && a.prevWord != "not") || word == "null," {
      NullAlike(fr, a, b, k, word == "null,", c1, c2);
    } else if a.prevWord == "order" && word == "by" {
    } else if a.sqlState == OrderBy && (word == "asc" || word == "asc," || word == "asc ") {
      AscAlike(fr, a, b, k, word == "asc,", c1, c2);
    }
  }

  lemma DashAlike(fr: Frame, a: Scan, b: Scan)
    requires fr.Ok() && Alike(fr, a, b)
    ensures a.cpTo > 2 <==> b.cpTo > 2
  {}

  lemma LostAlike(fr: Frame, q1: string, q2: string, a: Scan, b: Scan, k: nat, c1: nat, c2: nat)
    requires c1 <= c2 && fr.Ok() && Alike(fr, a, b) && SameText(fr, q1, q2, k) && (a.s == Unknown || a.s == MoreValuesOrUnknown)
    requires Alive(OnSpace(q1, a, fr.o1 + k, c1))
    ensures AlikeNext(fr, OnSpace(q1, a, fr.o1 + k, c1), OnSpace(q2, b, fr.o2 + k, c2))
  {
    hide EmitIfRoom, IsSpace, Frame.Same, Frame.SameFrom, SameText;
    Here(fr, k, 1);
    if EmitIfRoom(a, ' ', c1).over == 0 {
      EmitIfRoomAlike(fr, a, b, ' ', c1, c2);
    }
  }

  lemma WordAlike(fr: Frame, q1: string, q2: string, a: Scan, b: Scan, k: nat, c1: nat, c2: nat)
    requires c1 <= c2 && fr.Ok() && Alike(fr, a, b) && SameText(fr, q1, q2, k)
    requires a.s != Unknown && a.s != MoreValuesOrUnknown && a.s != InDash
    requires Alive(OnSpace(q1, a, fr.o1 + k, c1))
    ensures AlikeNext(fr, OnSpace(q1, a, fr.o1 + k, c1), OnSpace(q2, b, fr.o2 + k, c2))
  {
    hide EndWord, ToLower, Frame.Same, AlikeNext;
    if a.cpFrom <= fr.o1 + k {
      SliceAlike(fr, q1, q2, k, a.cpFrom - fr.o1, k);
      EndWordAlike(fr, a, b, k, ToLower(q2[b.cpFrom..fr.o2 + k]), c1, c2);
    }
  }

  lemma SpaceAlike(fr: Frame, q1: string, q2: string, a: Scan, b: Scan, k: nat, c1: nat, c2: nat)
    requires c1 <= c2 && fr.Ok() && Alike(fr, a, b) && SameText(fr, q1, q2, k) && Near(fr, a, k)
    requires Alive(OnSpace(q1, a, fr.o1 + k, c1))
    ensures AlikeNext(fr, OnSpace(q1, a, fr.o1 + k, c1), OnSpace(q2, b, fr.o2 + k, c2))
  {
    if a.s == InDash {
      hide Frame.Same, Frame.SameFrom, SameText, Frame.Ok, Frame.Far;
      DashAlike(fr, a, b);
      Here(fr, k, -2);
    } else if a.s == Unknown || a.s == MoreValuesOrUnknown {
      LostAlike(fr, q1, q2, a, b, k, c1, c2);
    } else {
      WordAlike(fr, q1, q2, a, b, k, c1, c2);
    }
  }

  lemma ParenAlike(fr: Frame, q1: string, q2: string, a: Scan, b: Scan, k: nat)
    requires fr.Ok() && Alike(fr, a, b) && SameText(fr, q1, q2, k)
    requires Alive(OnParen(q1, a, fr.o1 + k))
    ensures AlikeNext(fr, OnParen(q1, a, fr.o1 + k), OnParen(q2, b, fr.o2 + k))
  {
    hide IsList, ToLower, BeginValues, Frame.Same;
    BeginValuesAlike(fr, a, b, k);
    if a.cpFrom <= fr.o1 + k {
      SliceAlike(fr, q1, q2, k, a.cpFrom - fr.o1, k);
      assert q1[a.cpFrom..fr.o1 + k] == q2[b.cpFrom..fr.o2 + k];
    }
    if a.prevWord == "call" {
    } else if a.sqlState == OnDupeKeyUpdate {
    }
  }

  lemma BeginValuesAlike(fr: Frame, a: Scan, b: Scan, k: nat)
    requires fr.Ok() && Alike(fr, a, b)
    ensures Alike(fr, BeginValues(a, fr.o1 + k), BeginValues(b, fr.o2 + k))
  {
    hide Frame.Same, Frame.SameFrom;
    Here(fr, k, 0);
  }

  lemma QuoteAlike(fr: Frame, a: Scan, b: Scan, k: nat, r: char)
    requires fr.Ok() && Alike(fr, a, b)
    ensures Alike(fr, OnQuote(a, fr.o1 + k, r), OnQuote(b, fr.o2 + k, r))
  {
    assert fr.Same(-2, -2);
    hide Frame.Same, Frame.SameFrom;
    Here(fr, k, 0);
  }

  lemma OtherAlike(fr: Frame, a: Scan, b: Scan, k: nat)
    requires fr.Ok() && Alike(fr, a, b)
    ensures Alike(fr, OnOther(a, fr.o1 + k), OnOther(b, fr.o2 + k))
  {
    hide Frame.Same, Frame.SameFrom;
    Here(fr, k, 0);
  }

  lemma MarkAlike(fr: Frame, a: Scan, b: Scan, k: nat, r: char)
    requires fr.Ok() && Alike(fr, a, b)
    ensures Alike(fr, OnMark(a, fr.o1 + k, r), OnMark(b, fr.o2 + k, r))
  {
    hide Frame.Same, Frame.SameFrom, OnOther;
    Here(fr, k, 0);
    OtherAlike(fr, a, b, k);
    if r == '/' {
    } else if r == '-' {
    } else if r == '.' {
    } else if r == '#' {
    } else if r == '*' {
    }
  }

  lemma OperatorAlike(fr: Frame, a: Scan, b: Scan, k: nat)
    requires fr.Ok() && Alike(fr, a, b)
    ensures Alike(fr, OnOperator(a, fr.o1 + k), OnOperator(b, fr.o2 + k))
  {
    hide Frame.Same, Frame.SameFrom;
    Here(fr, k, 0);
  }

  lemma ChangeAlike(fr: Frame, q1: string, q2: string, a: Scan, b: Scan, k: nat, replaceNumbers: bool, c1: nat,
                    c2: nat)
    requires c1 <= c2 && fr.Ok() && Alike(fr, a, b) && SameText(fr, q1, q2, k) && Near(fr, a, k)
    requires Alive(Change(q1, a, fr.o1 + k, replaceNumbers, c1))
    ensures AlikeNext(fr, Change(q1, a, fr.o1 + k, replaceNumbers, c1), Change(q2, b, fr.o2 + k, replaceNumbers, c2))
  {
    hide OnDigit, OnSpace, OnQuote, OnParen, OnMark, IsSpace, IsDigit, Frame.Same, Frame.SameFrom,
      OnOperator, Near, Frame.Ok;
    var r := q1[fr.o1 + k];
    CharAlike(fr, q1, q2, k);
    OperatorAlike(fr, a, b, k);
    if IsDigit(r) {
      DigitAlike(fr, a, b, k, replaceNumbers);
    } else if IsSpace(r) {
      SpaceAlike(fr, q1, q2, a, b, k, c1, c2);
    } else if r == '\'' || r == '"' {
      QuoteAlike(fr, a, b, k, r);
    } else if r == '(' {
      ParenAlike(fr, q1, q2, a, b, k);
    } else {
      MarkAlike(fr, a, b, k, r);
    }
  }

  // ---------------------------------------------------------------- 3. copying

  lemma CopiedAlike(fr: Frame, a: Scan, b: Scan, word: string, c1: nat, c2: nat)
    requires c1 <= c2 && Alike(fr, a, b) && fr.SameFrom(a.cpTo, b.cpTo)
    requires Alive(Copied(a, word, c1))
    ensures AlikeNext(fr, Copied(a, word, c1), Copied(b, word, c2))
  {
    hide EmitAll, EmitIfRoom, IsList, Frame.Same;
    var t, u := a.(prevWord := word, cpFrom := a.cpTo), b.(prevWord := word, cpFrom := b.cpTo);
    AllKeepsOver(t, word, c1);
    AllKeepsOver(u, word, c2);
    EmitAllAlike(fr, t, u, word, c1, c2);
    var v, w := EmitAll(t, word, c1).st, EmitAll(u, word, c2).st;
    if !(IsList(word) && v.sqlState != OnDupeKeyUpdate) && v.addSpace {
      EmitIfRoomAlike(fr, v, w, ' ', c1, c2);
    }
  }

  lemma CopyAlike(fr: Frame, q1: string, q2: string, a: Scan, b: Scan, k: nat, c1: nat, c2: nat)
    requires c1 <= c2 && fr.Ok() && Alike(fr, a, b) && SameText(fr, q1, q2, k) && a.cpTo <= fr.o1 + k
    requires Alive(Copy(q1, a, c1))
    ensures AlikeNext(fr, Copy(q1, a, c1), Copy(q2, b, c2))
  {
    hide Copied, ToLower;
    assert a.cpTo > a.cpFrom <==> b.cpTo > b.cpFrom;
    if a.cpTo > a.cpFrom {
      assert fr.SameFrom(a.cpTo, b.cpTo);
      SliceAlike(fr, q1, q2, k, a.cpFrom - fr.o1, a.cpTo - fr.o1);
      CopiedAlike(fr, a, b, ToLower(q1[a.cpFrom..a.cpTo]), c1, c2);
    }
  }

  // ---------------------------------------------------------------- one round

  /** What holds of the variables before the character at qi, in every scan. */
  predicate Sound(st: Scan, qi: nat) {
    && st.cpTo <= qi && 0 <= st.firstPar && (st.firstPar < qi || st.firstPar == 0)
    && (st.escape ==> st.s == InQuote || st.s == InBackticks)
  }

  lemma SkipSound(st: Scan, qi: nat, r: char, cap: nat)
    requires Sound(st, qi)
    ensures var n := Skip(st, qi, r, cap);
            && (n.Go? ==> n.st.cpTo <= qi && 0 <= n.st.firstPar <= qi && !n.st.escape && n.st.over == st.over)
            && (n.Continue? ==> Sound(n.st, qi + 1) && n.st.over == st.over)
            && (n.Continue? && n.st.s == InQuote ==> n.st.cpTo <= qi)
            && !n.Stop? && !n.Verbatim?
  {
    hide IsSpace, InNumeral, EndsNumeral, IsDigit, Emit, SkipValues;
    EmitOver(st, '?', cap);
    if st.s == InValues {
      ValuesSound(st, qi, r, cap);
    } else if st.s == InQuote {
      EmitOver(st.(escape := false, cpFrom := qi + 1), '?', cap);
    }
  }

  lemma EmitOver(st: Scan, c: char, cap: nat)
    ensures Emit(st, c, cap).Go? ==> st.over == 0
  {}

  lemma ValuesSound(st: Scan, qi: nat, r: char, cap: nat)
    requires Sound(st, qi) && st.s == InValues
    ensures var n := SkipValues(st, qi, r, cap);
            && (n.Continue? ==> Sound(n.st, qi + 1) && n.st.over == st.over && n.st.cpTo <= qi)
            && !n.Go? && !n.Stop? && !n.Verbatim?
  {
    hide IsSpace, EmitAll;
  }

  lemma EndWordSound(st: Scan, qi: nat, word: string, cap: nat)
    ensures var n := EndWord(st, qi, word, cap);
            && (n.Go? ==> n.st.cpTo == qi && n.st.firstPar == st.firstPar && n.st.escape == st.escape
                          && n.st.over >= st.over)
            && (n.Stop? ==> n.over == st.over)
            && !n.Continue?
  {
    hide EmitAll, EmitIfRoom;
  }

  lemma ChangeSound(q: string, st: Scan, qi: nat, replaceNumbers: bool, cap: nat)
    requires st.cpTo <= qi < |q| && 0 <= st.firstPar <= qi && !st.escape
    ensures var n := Change(q, st, qi, replaceNumbers, cap);
            && (n.Go? ==> n.st.cpTo <= qi && 0 <= n.st.firstPar <= qi && !n.st.escape && n.st.over >= st.over)
            && (n.Stop? ==> n.over == st.over)
            && !n.Continue?
  {
    hide IsSpace, IsDigit, IsList, ToLower, EmitAll, EmitIfRoom, EndWord, OnParen, OnMark;
    ParenSound(q, st, qi);
    MarkSound(st, qi, q[qi]);
    if IsSpace(q[qi]) && 0 <= st.cpFrom <= qi {
      EndWordSound(st, qi, ToLower(q[st.cpFrom..qi]), cap);
    }
  }

  lemma ParenSound(q: string, st: Scan, qi: nat)
    requires st.cpTo <= qi < |q| && 0 <= st.firstPar <= qi && !st.escape
    ensures var n := OnParen(q, st, qi);
            && (n.Go? ==> n.st.cpTo <= qi && 0 <= n.st.firstPar <= qi && !n.st.escape && n.st.over == st.over)
            && (n.Stop? ==> n.over == st.over)
            && !n.Continue?
  {
    hide IsList, ToLower;
  }

  lemma MarkSound(st: Scan, qi: nat, r: char)
    requires st.cpTo <= qi
    ensures var t := OnMark(st, qi, r);
            t.cpTo <= qi && t.firstPar == st.firstPar && t.escape == st.escape && t.over == st.over
  {}

  lemma CopySound(q: string, st: Scan, cap: nat)
    ensures var n := Copy(q, st, cap);
            && (n.Go? ==> n.st.cpTo == st.cpTo && n.st.firstPar == st.firstPar && n.st.escape == st.escape
                          && n.st.over >= st.over)
            && (n.Go? || n.Panic?)
  {
    hide IsList, ToLower, EmitAll, EmitIfRoom;
  }

  lemma StepSound(q: string, st: Scan, qi: nat, replaceNumbers: bool)
    requires qi < |q| && Sound(st, qi)
    ensures var n := Step(q, st, qi, replaceNumbers);
            && (n.Continue? ==> Sound(n.st, qi + 1) && n.st.over >= st.over)
            && (n.Continue? && n.st.s == InQuote ==> n.st.cpTo <= qi)
            && (n.Stop? ==> n.over >= st.over)
            && !n.Go?
  {
    hide Skip, Change, Copy;
    SkipSound(st, qi, q[qi], |q|);
    var a := Skip(st, qi, q[qi], |q|);
    if a.Go? {
      ChangeSound(q, a.st, qi, replaceNumbers, |q|);
      var b := Change(q, a.st, qi, replaceNumbers, |q|);
      if b.Go? {
        CopySound(q, b.st, |q|);
      }
    }
  }

  lemma ValuesDash(st: Scan, qi: nat, r: char, cap: nat)
    requires st.s == InValues
    ensures var n := SkipValues(st, qi, r, cap);
            !n.Go? && (n.Continue? ==> n.st.s != InDash)
  {
    hide IsSpace, EmitAll;
  }

  /** Skipping brings the scan behind neither a sign nor a dash. */
  lemma SkipDash(st: Scan, qi: nat, r: char, cap: nat)
    ensures var n := Skip(st, qi, r, cap);
            && (n.Go? ==> n.st.pr == st.pr && (n.st.s == st.s || (n.st.s != InDash && n.st.s != OpOrNumber)))
            && (n.Continue? && n.st.s == InDash ==> st.s == InDash)
  {
    hide IsSpace, InNumeral, EndsNumeral, IsDigit, Emit, SkipValues;
    if st.s == InValues {
      ValuesDash(st, qi, r, cap);
    }
  }

  /** A scan is behind two dashes only if it was already, or was behind one. */
  lemma StepDash(q: string, st: Scan, qi: nat, replaceNumbers: bool)
    requires qi < |q|
    ensures var n := Step(q, st, qi, replaceNumbers);
            n.Continue? && n.st.s == InDash ==> st.s == InDash || st.pr == '-'
  {
    hide Skip, Change, Copy;
    SkipDash(st, qi, q[qi], |q|);
    var a := Skip(st, qi, q[qi], |q|);
    if a.Go? {
      ChangeDash(q, a.st, qi, replaceNumbers, |q|);
      var b := Change(q, a.st, qi, replaceNumbers, |q|);
      if b.Go? {
        CopyDash(q, b.st, |q|);
      }
    }
  }

  lemma ChangeDash(q: string, st: Scan, qi: nat, replaceNumbers: bool, cap: nat)
    requires qi < |q|
    ensures var n := Change(q, st, qi, replaceNumbers, cap);
            (n.Go? && n.st.s == InDash ==> st.s == InDash || st.pr == '-') && !n.Continue?
  {
    hide IsSpace, IsDigit, ToLower, OnParen, EndWord, EmitIfRoom;
    ParenDash(q, st, qi);
    if 0 <= st.cpFrom <= qi {
      EndWordDash(st, qi, ToLower(q[st.cpFrom..qi]), cap);
    }
  }

  lemma EndWordDash(st: Scan, qi: nat, word: string, cap: nat)
    ensures var n := EndWord(st, qi, word, cap);
            (n.Go? ==> n.st.s == InSpace) && !n.Continue?
  {
    hide EmitAll, EmitIfRoom;
  }

  lemma ParenDash(q: string, st: Scan, qi: nat)
    requires qi < |q|
    ensures var n := OnParen(q, st, qi);
            (n.Go? ==> n.st.s != InDash || st.s == InDash) && !n.Continue?
  {
    hide IsList, ToLower;
  }

  lemma CopyDash(q: string, st: Scan, cap: nat)
    ensures var n := Copy(q, st, cap);
            (n.Go? && n.st.s == InDash ==> st.s == InDash) && !n.Continue?
  {
    hide IsList, ToLower, EmitAll, EmitIfRoom;
  }

  lemma StepNear(fr: Frame, q: string, st: Scan, qi: nat, k: nat, replaceNumbers: bool)
    requires qi < |q| && Near(fr, st, k)
    ensures var n := Step(q, st, qi, replaceNumbers);
            n.Continue? ==> Near(fr, n.st, k + 1)
  {
    hide Step, Frame.Far;
    StepDash(q, st, qi, replaceNumbers);
  }

  lemma SkippedNear(fr: Frame, st: Scan, t: Scan, k: nat)
    requires Near(fr, st, k) && t.pr == st.pr && (t.s == st.s || (t.s != InDash && t.s != OpOrNumber))
    ensures Near(fr, t, k)
  {}

  /** One round keeps the two scans alike. */
  lemma StepAlike(fr: Frame, q1: string, q2: string, a: Scan, b: Scan, k: nat, replaceNumbers: bool)
    requires |q1| <= |q2| && fr.Ok() && Alike(fr, a, b) && SameText(fr, q1, q2, k) && Near(fr, a, k)
    requires Sound(a, fr.o1 + k) && Sound(b, fr.o2 + k)
    requires Alive(Step(q1, a, fr.o1 + k, replaceNumbers))
    ensures AlikeNext(fr, Step(q1, a, fr.o1 + k, replaceNumbers), Step(q2, b, fr.o2 + k, replaceNumbers))
  {
    hide Skip, Change, Copy, Frame.Same, Frame.SameFrom, Frame.Ok, Near;
    var i, j := fr.o1 + k, fr.o2 + k;
    SkipDash(a, i, q1[i], |q1|);
    CharAlike(fr, q1, q2, k);
    SkipSound(a, i, q1[i], |q1|);
    SkipSound(b, j, q2[j], |q2|);
    SkipAlike(fr, a, b, k, q1[i], |q1|, |q2|);
    var s1, s2 := Skip(a, i, q1[i], |q1|), Skip(b, j, q2[j], |q2|);
    if s1.Go? {
      assert Near(fr, s1.st, k) by {
        SkippedNear(fr, a, s1.st, k);
      }
      ChangeSound(q1, s1.st, i, replaceNumbers, |q1|);
      ChangeSound(q2, s2.st, j, replaceNumbers, |q2|);
      var c1, c2 := Change(q1, s1.st, i, replaceNumbers, |q1|), Change(q2, s2.st, j, replaceNumbers, |q2|);
      if c1.Go? {
        CopySound(q1, c1.st, |q1|);
      }
      if c2.Go? {
        CopySound(q2, c2.st, |q2|);
      }
      ChangeAlike(fr, q1, q2, s1.st, s2.st, k, replaceNumbers, |q1|, |q2|);
      if c1.Go? {
        CopyAlike(fr, q1, q2, c1.st, c2.st, k, |q1|, |q2|);
      }
    }
  }

  // ---------------------------------------------------------------- whole scans

  /** The scan ends with a fingerprint and has not lost output. */
  predicate Complete(r: Outcome) {
    r.Text? && r.over == 0
  }

  lemma {:induction false} RunOver(q: string, st: Scan, qi: nat, replaceNumbers: bool)
    requires qi <= |q| && Sound(st, qi) && Complete(Run(q, st, qi, replaceNumbers))
    ensures st.over == 0
    decreases |q| - qi
  {
    hide Step, Sound;
    if qi < |q| {
      StepSound(q, st, qi, replaceNumbers);
      var n := Step(q, st, qi, replaceNumbers);
      if n.Continue? {
        RunOver(q, n.st, qi + 1, replaceNumbers);
      }
    }
  }

  lemma RunStep(q: string, st: Scan, qi: nat, replaceNumbers: bool)
    requires qi < |q| && Sound(st, qi) && Complete(Run(q, st, qi, replaceNumbers))
    ensures var n := Step(q, st, qi, replaceNumbers);
            && Alive(n) && !n.Go?
            && (n.Continue? ==> Sound(n.st, qi + 1) && Complete(Run(q, n.st, qi + 1, replaceNumbers))
                                && Run(q, st, qi, replaceNumbers) == Run(q, n.st, qi + 1, replaceNumbers))
            && (n.Stop? ==> Run(q, st, qi, replaceNumbers) == Text(n.text, 0))
  {
    hide Step, Sound;
    StepSound(q, st, qi, replaceNumbers);
    var n := Step(q, st, qi, replaceNumbers);
    if n.Continue? {
      RunOver(q, n.st, qi + 1, replaceNumbers);
    }
  }

  lemma TextAlike(fr: Frame, q1: string, q2: string, k: nat)
    requires fr.o1 + k < |q1| && fr.o2 <= |q2| && q1[fr.o1..] == q2[fr.o2..]
    ensures SameText(fr, q1, q2, k)
  {
    assert |q1| - fr.o1 == |q1[fr.o1..]| == |q2[fr.o2..]| == |q2| - fr.o2;
    assert q1[fr.o1..fr.o1 + k + 1] == q1[fr.o1..][..k + 1];
    assert q2[fr.o2..fr.o2 + k + 1] == q2[fr.o2..][..k + 1];
  }

  lemma SuffixLength(fr: Frame, q1: string, q2: string)
    requires fr.o1 <= |q1| && fr.o2 <= |q2| && q1[fr.o1..] == q2[fr.o2..]
    ensures |q1| - fr.o1 == |q2| - fr.o2
  {
    assert |q1| - fr.o1 == |q1[fr.o1..]| == |q2[fr.o2..]| == |q2| - fr.o2;
  }

  lemma AlikeEnds(fr: Frame, q1: string, q2: string, a: Scan, b: Scan, replaceNumbers: bool)
    requires Alike(fr, a, b)
    ensures Run(q1, a, |q1|, replaceNumbers) == Run(q2, b, |q2|, replaceNumbers)
  {
    hide Trim, DropNul, Frame.Same, Frame.SameFrom;
  }

  lemma AlikeStops(fr: Frame, q1: string, q2: string, a: Scan, b: Scan, i: nat, j: nat, replaceNumbers: bool)
    requires i < |q1| && j < |q2|
    requires AlikeNext(fr, Step(q1, a, i, replaceNumbers), Step(q2, b, j, replaceNumbers))
    requires Step(q1, a, i, replaceNumbers).Stop?
    ensures Run(q1, a, i, replaceNumbers) == Run(q2, b, j, replaceNumbers)
  {
    hide Step, Alike;
  }

  lemma AlikeGoesOn(fr: Frame, m: Next, n: Next)
    requires AlikeNext(fr, m, n) && m.Continue?
    ensures n.Continue? && Alike(fr, m.st, n.st)
  {
    hide Alike;
  }

  /** After the literal, alike scans of the same text end in the same fingerprint. */
  lemma {:induction false} RunAlike(fr: Frame, q1: string, q2: string, a: Scan, b: Scan, k: nat, replaceNumbers: bool)
    requires fr.Ok() && Alike(fr, a, b) && fr.o1 <= |q1| && fr.o2 <= |q2| && q1[fr.o1..] == q2[fr.o2..]
    requires fr.o1 + k <= |q1| <= |q2| && Sound(a, fr.o1 + k) && Sound(b, fr.o2 + k) && Near(fr, a, k)
    requires Complete(Run(q1, a, fr.o1 + k, replaceNumbers))
    ensures fr.o2 + k <= |q2|
    ensures Run(q1, a, fr.o1 + k, replaceNumbers) == Run(q2, b, fr.o2 + k, replaceNumbers)
    decreases |q1| - k
  {
    hide Run, Step, Sound, Frame.Ok, Alike, AlikeNext, SameText, Complete, Alive, Near;
    SuffixLength(fr, q1, q2);
    var i, j := fr.o1 + k, fr.o2 + k;
    if i == |q1| {
      AlikeEnds(fr, q1, q2, a, b, replaceNumbers);
    } else {
      TextAlike(fr, q1, q2, k);
      RunStep(q1, a, i, replaceNumbers);
      StepSound(q2, b, j, replaceNumbers);
      StepAlike(fr, q1, q2, a, b, k, replaceNumbers);
      StepNear(fr, q1, a, i, k, replaceNumbers);
      var m, n := Step(q1, a, i, replaceNumbers), Step(q2, b, j, replaceNumbers);
      if m.Continue? {
        AlikeGoesOn(fr, m, n);
        RunAlike(fr, q1, q2, m.st, n.st, k + 1, replaceNumbers);
        RunOnce(q2, b, j, replaceNumbers);
      } else {
        AliveEnds(m);
        AlikeStops(fr, q1, q2, a, b, i, j, replaceNumbers);
      }
    }
  }

  lemma AliveEnds(n: Next)
    requires Alive(n) && !n.Go? && !n.Continue?
    ensures n.Stop?
  {}

  /** The variables before the character at n, if the scan gets there. */
  function Reach(q: string, st: Scan, qi: nat, n: nat, replaceNumbers: bool): Next
    requires qi <= n <= |q|
    decreases n - qi
  {
    if qi == n then Continue(st)
    else
      match Step(q, st, qi, replaceNumbers)
      case Continue(t) => Reach(q, t, qi + 1, n, replaceNumbers)
      case other => other
  }

  /** A scan that gets to n goes on from there. */
  lemma {:induction false} RunReach(q: string, st: Scan, qi: nat, n: nat, replaceNumbers: bool)
    requires qi <= n <= |q| && Sound(st, qi)
    ensures var r := Reach(q, st, qi, n, replaceNumbers);
            r.Continue? ==> Sound(r.st, n) && Run(q, r.st, n, replaceNumbers) == Run(q, st, qi, replaceNumbers)
    decreases n - qi
  {
    hide Step, Sound;
    if qi < n {
      StepSound(q, st, qi, replaceNumbers);
      var m := Step(q, st, qi, replaceNumbers);
      if m.Continue? {
        RunReach(q, m.st, qi + 1, n, replaceNumbers);
      }
    }
  }

  /** Over a common prefix the two scans go through the same states. */
  lemma {:induction false} PrefixAlike(q1: string, q2: string, st: Scan, qi: nat, n: nat, replaceNumbers: bool)
    requires qi <= n <= |q1| <= |q2| && q1[..n] == q2[..n] && Sound(st, qi)
    requires st.over == 0 && st.cpFrom >= 0
    requires Complete(Run(q1, st, qi, replaceNumbers))
    ensures Reach(q1, st, qi, n, replaceNumbers) == Reach(q2, st, qi, n, replaceNumbers) ||
            (Reach(q1, st, qi, n, replaceNumbers).Stop? && Reach(q2, st, qi, n, replaceNumbers).Stop?)
    decreases n - qi
  {
    hide Step;
    if qi < n {
      var fr := Frame(0, 0, 0);
      assert Alike(fr, st, st);
      SubSlice(q1, 0, n, 0, qi + 1);
      SubSlice(q2, 0, n, 0, qi + 1);
      assert q1[0..n] == q1[..n] && q2[0..n] == q2[..n];
      assert SameText(fr, q1, q2, qi);
      RunStep(q1, st, qi, replaceNumbers);
      StepSound(q2, st, qi, replaceNumbers);
      StepAlike(fr, q1, q2, st, st, qi, replaceNumbers);
      var a, b := Step(q1, st, qi, replaceNumbers), Step(q2, st, qi, replaceNumbers);
      if a.Continue? {
        assert a.st == b.st;
        PrefixAlike(q1, q2, a.st, qi + 1, n, replaceNumbers);
      }
    }
  }

  // ---------------------------------------------------------------- how far a list of values is

  /** A list of values begins with a word, so that it is never among the first three characters. */
  predicate Deep(st: Scan, qi: nat) {
    && 0 <= st.cpFrom && |st.prevWord| <= qi
    && (st.s == InValues || st.sqlState == InValues ==> qi >= 3)
  }

  lemma SkipDeep(st: Scan, qi: nat, r: char, cap: nat)
    requires Deep(st, qi)
    ensures var n := Skip(st, qi, r, cap);
            && (n.Go? ==> Deep(n.st, qi))
            && (n.Continue? ==> Deep(n.st, qi + 1))
  {
    hide IsSpace, InNumeral, EndsNumeral, IsDigit, Emit, SkipValues;
    if st.s == InValues {
      ValuesDeep(st, qi, r, cap);
    }
  }

  lemma ValuesDeep(st: Scan, qi: nat, r: char, cap: nat)
    requires Deep(st, qi) && st.s == InValues
    ensures var n := SkipValues(st, qi, r, cap);
            !n.Go? && (n.Continue? ==> Deep(n.st, qi + 1))
  {
    hide IsSpace, EmitAll;
  }

  lemma EndWordDeep(st: Scan, qi: nat, word: string, cap: nat)
    requires 0 <= st.cpFrom
    ensures var n := EndWord(st, qi, word, cap);
            n.Go? ==> 0 <= n.st.cpFrom && n.st.prevWord == st.prevWord && n.st.s == InSpace
                      && (n.st.sqlState == InValues ==> st.sqlState == InValues)
  {
    hide EmitAll, EmitIfRoom;
  }

  lemma ParenDeep(q: string, st: Scan, qi: nat)
    requires qi < |q| && Deep(st, qi)
    ensures var n := OnParen(q, st, qi);
            n.Go? ==> Deep(n.st, qi + 1)
  {
    hide ToLower;
  }

  /** The next state is deep, and the word before it was copied before this character. */
  predicate DeepNext(n: Next, qi: nat) {
    n.Go? ==> Deep(n.st, qi + 1) && |n.st.prevWord| <= qi
  }

  lemma SpaceDeep(q: string, st: Scan, qi: nat, cap: nat)
    requires qi < |q| && Deep(st, qi)
    ensures DeepNext(OnSpace(q, st, qi, cap), qi)
  {
    hide IsSpace, ToLower, EndWord, EmitIfRoom;
    if 0 <= st.cpFrom <= qi {
      EndWordDeep(st, qi, ToLower(q[st.cpFrom..qi]), cap);
    }
  }

  lemma MarkDeep(st: Scan, qi: nat, r: char)
    requires Deep(st, qi)
    ensures DeepNext(Go(OnMark(st, qi, r)), qi)
  {}

  lemma ChangeDeep(q: string, st: Scan, qi: nat, replaceNumbers: bool, cap: nat)
    requires qi < |q| && Deep(st, qi)
    ensures DeepNext(Change(q, st, qi, replaceNumbers, cap), qi)
  {
    hide IsSpace, IsDigit, OnSpace, OnParen, OnMark;
    ParenDeep(q, st, qi);
    ParenWord(q, st, qi);
    SpaceDeep(q, st, qi, cap);
    MarkDeep(st, qi, q[qi]);
  }

  lemma ParenWord(q: string, st: Scan, qi: nat)
    requires qi < |q|
    ensures var n := OnParen(q, st, qi);
            n.Go? ==> n.st.prevWord == st.prevWord
  {
    hide IsList, ToLower;
  }

  lemma CopyDeep(q: string, st: Scan, qi: nat, cap: nat)
    requires Deep(st, qi + 1) && st.cpTo <= qi < |q|
    ensures var n := Copy(q, st, cap);
            n.Go? ==> Deep(n.st, qi + 1)
  {
    hide EmitAll, EmitIfRoom, IsList;
    if 0 <= st.cpFrom < st.cpTo {
      ListIsLong(ToLower(q[st.cpFrom..st.cpTo]));
    }
  }

  lemma ListIsLong(w: string)
    ensures IsList(w) ==> |w| >= 2
  {}

  lemma StepDeep(q: string, st: Scan, qi: nat, replaceNumbers: bool)
    requires qi < |q| && Sound(st, qi) && Deep(st, qi)
    ensures var n := Step(q, st, qi, replaceNumbers);
            n.Continue? ==> Deep(n.st, qi + 1)
  {
    hide Skip, Change, Copy, Deep, Sound;
    SkipDeep(st, qi, q[qi], |q|);
    SkipSound(st, qi, q[qi], |q|);
    var a := Skip(st, qi, q[qi], |q|);
    if a.Go? {
      ChangeDeep(q, a.st, qi, replaceNumbers, |q|);
      ChangeSound(q, a.st, qi, replaceNumbers, |q|);
      var b := Change(q, a.st, qi, replaceNumbers, |q|);
      if b.Go? {
        CopyDeep(q, b.st, qi, |q|);
        CopySound(q, b.st, |q|);
        var c := Copy(q, b.st, |q|);
        if c.Go? {
          DeepRead(c.st, qi + 1, q[qi]);
        }
      }
    }
  }

  lemma DeepRead(st: Scan, qi: nat, r: char)
    requires Deep(st, qi)
    ensures Deep(st.(pr := r), qi)
  {}

  lemma {:induction false} ReachDeep(q: string, st: Scan, qi: nat, n: nat, replaceNumbers: bool)
    requires qi <= n <= |q| && Sound(st, qi) && Deep(st, qi)
    ensures var r := Reach(q, st, qi, n, replaceNumbers);
            r.Continue? ==> Deep(r.st, n)
    decreases n - qi
  {
    hide Step, Sound, Deep;
    if qi < n {
      StepSound(q, st, qi, replaceNumbers);
      StepDeep(q, st, qi, replaceNumbers);
      var m := Step(q, st, qi, replaceNumbers);
      if m.Continue? {
        ReachDeep(q, m.st, qi + 1, n, replaceNumbers);
      }
    }
  }

  // ---------------------------------------------------------------- inside the literal

  /** A literal body: no unescaped quote, and no escape left open. */
  predicate Body(quote: char, escape: bool, b: string)
    decreases |b|
  {
    if b == "" then !escape
    else if b[0] != quote then Body(quote, !escape && b[0] == '\\', b[1..])
    else escape && Body(quote, false, b[1..])
  }

  lemma {:induction false} BodySkipped(q: string, st: Scan, qi: nat, n: nat, replaceNumbers: bool)
    requires qi <= n <= |q| && st.s == InQuote && Body(st.quoteChar, st.escape, q[qi..n])
    ensures Reach(q, st, qi, n, replaceNumbers) == Continue(st.(escape := false))
    decreases n - qi
  {
    if qi < n {
      hide Change, Copy;
      var b := q[qi..n];
      assert b[0] == q[qi] && b[1..] == q[qi + 1..n];
      var t := st.(escape := q[qi] != st.quoteChar && !st.escape && q[qi] == '\\');
      assert Step(q, st, qi, replaceNumbers) == Continue(t);
      BodySkipped(q, t, qi + 1, n, replaceNumbers);
    } else {
      assert q[qi..n] == "";
    }
  }

  // ---------------------------------------------------------------- the theorem

  function Query(before: string, quote: char, body: string, after: string): string {
    before + [quote] + body + [quote] + after
  }

  /** In the scan of the query, the quote after `before` opens a literal. */
  predicate Opens(before: string, quote: char, body: string, after: string, replaceNumbers: bool) {
    var q := Query(before, quote, body, after) + " ";
    var n := Reach(q, START, 0, |before|, replaceNumbers);
    && n.Continue? && n.st.s != InQuote
    && var m := Step(q, n.st, |before|, replaceNumbers);
       m.Continue? && m.st.s == InQuote && m.st.quoteChar == quote
  }

  /** The state in which the scan leaves the literal. */
  function Left(st: Scan, o: nat): Scan {
    if st.sqlState == InValues then st.(escape := false, cpFrom := o, s := InValues)
    else st.(escape := false, cpFrom := o, out := st.out + "?", s := Unknown)
  }

  /** The output array has room for the question mark that stands for the literal. */
  predicate Room(st: Scan, cap: nat) {
    st.sqlState == InValues || (st.over == 0 && |st.out| < cap)
  }

  /** The scan goes over the literal and leaves it just behind its closing quote. */
  lemma Crosses(before: string, quote: char, body: string, after: string, st: Scan, replaceNumbers: bool)
    requires Body(quote, false, body)
    requires var q := Query(before, quote, body, after) + " ";
             Reach(q, START, 0, |before| + 1, replaceNumbers) == Continue(st)
    requires st.s == InQuote && st.quoteChar == quote && !st.escape
    ensures var q := Query(before, quote, body, after) + " ";
            var o := |before| + |body| + 2;
            && o <= |q| && Sound(st, |before| + 1)
            && (Room(st, |q|) ==>
                  Sound(Left(st, o), o) && Run(q, Left(st, o), o, replaceNumbers) == Run(q, START, 0, replaceNumbers))
            && (Complete(Run(q, START, 0, replaceNumbers)) ==> st.over == 0 && Room(st, |q|))
  {
    hide Run, Sound, Reach, Step, Room, Left;
    var q := Query(before, quote, body, after) + " ";
    var p, o := |before| + 1, |before| + |body| + 2;
    StartSound();
    RunReach(q, START, 0, p, replaceNumbers);
    assert q[p..p + |body|] == body;
    BodySkipped(q, st, p, o - 1, replaceNumbers);
    assert st.(escape := false) == st;
    RunReach(q, st, p, o - 1, replaceNumbers);
    assert q[o - 1] == quote;
    ClosingStep(q, st, o - 1, replaceNumbers);
    StepSound(q, st, o - 1, replaceNumbers);
    if Complete(Run(q, START, 0, replaceNumbers)) {
      RunOver(q, st, o - 1, replaceNumbers);
      RunStep(q, st, o - 1, replaceNumbers);
    }
    RunOnce(q, st, o - 1, replaceNumbers);
  }

  lemma RunOnce(q: string, st: Scan, qi: nat, replaceNumbers: bool)
    requires qi < |q|
    ensures var n := Step(q, st, qi, replaceNumbers);
            n.Continue? ==> Run(q, st, qi, replaceNumbers) == Run(q, n.st, qi + 1, replaceNumbers)
  {
    hide Step;
  }

  lemma StartSound()
    ensures Sound(START, 0)
  {}

  lemma ClosingStep(q: string, st: Scan, qi: nat, replaceNumbers: bool)
    requires qi < |q| && st.s == InQuote && st.quoteChar == q[qi] && !st.escape
    ensures var n := Step(q, st, qi, replaceNumbers);
            if Room(st, |q|) then n == Continue(Left(st, qi + 1)) else n.Panic?
  {
    hide Change, Copy;
  }

  lemma {:induction false} ReachNext(q: string, st: Scan, qi: nat, n: nat, replaceNumbers: bool)
    requires qi <= n < |q| && Reach(q, st, qi, n, replaceNumbers).Continue?
    ensures Reach(q, st, qi, n + 1, replaceNumbers) ==
            Step(q, Reach(q, st, qi, n, replaceNumbers).st, n, replaceNumbers)
    requires !Step(q, Reach(q, st, qi, n, replaceNumbers).st, n, replaceNumbers).Go?
    decreases n - qi
  {
    hide Step;
    if qi < n {
      ReachNext(q, Step(q, st, qi, replaceNumbers).st, qi + 1, n, replaceNumbers);
    }
  }

  /** Only a quote character opens a literal. */
  lemma ChangeOpens(q: string, st: Scan, qi: nat, replaceNumbers: bool, cap: nat)
    requires qi < |q| && st.s != InQuote
    ensures var n := Change(q, st, qi, replaceNumbers, cap);
            n.Go? && n.st.s == InQuote ==> q[qi] == '\'' || q[qi] == '"'
  {
    hide IsSpace, IsDigit, IsList, ToLower, EndWord, EmitIfRoom;
    if 0 <= st.cpFrom <= qi {
      EndWordDash(st, qi, ToLower(q[st.cpFrom..qi]), cap);
    }
  }

  lemma CopyOpens(q: string, st: Scan, cap: nat)
    ensures var n := Copy(q, st, cap);
            n.Go? && n.st.s == InQuote ==> st.s == InQuote
  {
    hide IsList, ToLower, EmitAll, EmitIfRoom;
  }

  lemma OpeningStep(q: string, st: Scan, qi: nat, replaceNumbers: bool)
    requires qi < |q| && Sound(st, qi) && st.s != InQuote
    ensures var n := Step(q, st, qi, replaceNumbers);
            n.Continue? && n.st.s == InQuote ==>
              && !n.st.escape && n.st.cpTo <= qi && (st.s == InValues || n.st.pr == q[qi])
              && (q[qi] == '\'' || q[qi] == '"')
  {
    hide Change, Copy, SkipValues, Emit, IsSpace, IsDigit, InNumeral, EndsNumeral;
    SkipSound(st, qi, q[qi], |q|);
    if st.s == InValues {
      ValuesDash(st, qi, q[qi], |q|);
      ValuesEscape(st, qi, q[qi], |q|);
    }
    var a := Skip(st, qi, q[qi], |q|);
    if a.Go? {
      ChangeSound(q, a.st, qi, replaceNumbers, |q|);
      ChangeOpens(q, a.st, qi, replaceNumbers, |q|);
      var b := Change(q, a.st, qi, replaceNumbers, |q|);
      if b.Go? {
        CopySound(q, b.st, |q|);
        CopyOpens(q, b.st, |q|);
      }
    }
  }

  lemma ValuesEscape(st: Scan, qi: nat, r: char, cap: nat)
    requires st.s == InValues
    ensures var n := SkipValues(st, qi, r, cap);
            n.Continue? ==> n.st.escape == st.escape && (n.st.s == InQuote ==> r == '\'' || r == '"')
  {
    hide IsSpace, EmitAll;
  }

  /** What the scan of a query knows when the quote has opened the literal. */
  lemma Opened(before: string, quote: char, body: string, after: string, replaceNumbers: bool) returns (st: Scan)
    requires Opens(before, quote, body, after, replaceNumbers)
    requires Complete(FingerprintOf(Query(before, quote, body, after), replaceNumbers))
    ensures Reach(Query(before, quote, body, after) + " ", START, 0, |before| + 1, replaceNumbers) == Continue(st)
    ensures st.s == InQuote && st.quoteChar == quote && !st.escape
    ensures st.cpTo <= |before| && (st.pr != '-' || |before| >= 3)
  {
    hide Run, Sound, Reach, Step;
    var q := Query(before, quote, body, after) + " ";
    StartSound();
    ReachDeep(q, START, 0, |before|, replaceNumbers);
    RunReach(q, START, 0, |before|, replaceNumbers);
    var n := Reach(q, START, 0, |before|, replaceNumbers);
    StepSound(q, n.st, |before|, replaceNumbers);
    OpeningStep(q, n.st, |before|, replaceNumbers);
    ReachNext(q, START, 0, |before|, replaceNumbers);
    st := Step(q, n.st, |before|, replaceNumbers).st;
  }

  lemma LeftAlike(st: Scan, p: nat, o1: nat, o2: nat)
    requires 0 < p < o1 && p < o2 && st.over == 0 && st.cpTo < p && 0 <= st.firstPar < p
    requires st.pr != '-' || p >= 4
    ensures Alike(Frame(p, o1, o2), Left(st, o1), Left(st, o2)) && Near(Frame(p, o1, o2), Left(st, o1), 0)
  {}

  /** The literals are not at the very beginning, or both are empty there, or neither is. */
  predicate Comparable(before: string, body1: string, body2: string) {
    before != "" || (body1 == "" <==> body2 == "")
  }

  /**
    Replacing the body of a literal by another body that is no shorter leaves the fingerprint as it is,
    as long as the scan of the shorter query does not fill its output array and the query is not
    returned verbatim as an administrator command.
   */
  lemma LiteralReplaced(before: string, quote: char, body1: string, body2: string, after: string,
                        replaceNumbers: bool)
    requires Comparable(before, body1, body2) && |body1| <= |body2|
    requires Opens(before, quote, body1, after, replaceNumbers)
    requires Body(quote, false, body1) && Body(quote, false, body2)
    requires Complete(FingerprintOf(Query(before, quote, body1, after), replaceNumbers))
    ensures FingerprintOf(Query(before, quote, body2, after), replaceNumbers)
         == FingerprintOf(Query(before, quote, body1, after), replaceNumbers)
  {
    hide Run, Sound, Reach, Step, Body, Opens, Left, Alike, Room, Near, Query, Frame.Ok, Comparable;
    var q1, q2 := Query(before, quote, body1, after) + " ", Query(before, quote, body2, after) + " ";
    var p := |before| + 1;
    var o1, o2 := p + |body1| + 1, p + |body2| + 1;
    var st := Opened(before, quote, body1, after, replaceNumbers);
    QueryParts(before, quote, body1, after);
    QueryParts(before, quote, body2, after);
    StartSound();
    PrefixAlike(q1, q2, START, 0, p, replaceNumbers);
    Crosses(before, quote, body1, after, st, replaceNumbers);
    Crosses(before, quote, body2, after, st, replaceNumbers);
    assert Room(st, |q2|) by {
      MoreRoom(st, |q1|, |q2|);
    }
    SoundPar(st, p);
    LeftAlike(st, p, o1, o2);
    FrameOk(before, body1, body2);
    RunAlike(Frame(p, o1, o2), q1, q2, Left(st, o1), Left(st, o2), 0, replaceNumbers);
  }

  lemma QueryParts(before: string, quote: char, body: string, after: string)
    ensures var q := Query(before, quote, body, after) + " ";
            && |q| == |before| + |body| + |after| + 3
            && q[..|before| + 1] == before + [quote]
            && q[|before| + |body| + 2..] == after + " "
  {}

  lemma FrameOk(before: string, body1: string, body2: string)
    requires Comparable(before, body1, body2)
    ensures var p := |before| + 1;
            Frame(p, p + |body1| + 1, p + |body2| + 1).Ok()
  {}

  lemma MoreRoom(st: Scan, c1: nat, c2: nat)
    requires c1 <= c2 && Room(st, c1)
    ensures Room(st, c2)
  {}

  /**
    For any two bodies: if the scan of one query is complete, the fingerprints are the same if and only
    if the scan of the other query is complete too.
   */
  lemma LiteralInsensitive(before: string, quote: char, body1: string, body2: string, after: string,
                           replaceNumbers: bool)
    requires Comparable(before, body1, body2) && Opens(before, quote, body1, after, replaceNumbers)
    requires Body(quote, false, body1) && Body(quote, false, body2)
    requires Complete(FingerprintOf(Query(before, quote, body1, after), replaceNumbers))
    ensures FingerprintOf(Query(before, quote, body1, after), replaceNumbers)
         == FingerprintOf(Query(before, quote, body2, after), replaceNumbers)
        <==> Complete(FingerprintOf(Query(before, quote, body2, after), replaceNumbers))
  {
    hide Run, Sound, Reach, Step, Body, Opens;
    if |body1| <= |body2| {
      LiteralReplaced(before, quote, body1, body2, after, replaceNumbers);
    } else if Complete(FingerprintOf(Query(before, quote, body2, after), replaceNumbers)) {
      OpensToo(before, quote, body1, body2, after, replaceNumbers);
      LiteralReplaced(before, quote, body2, body1, after, replaceNumbers);
    }
  }

  /** Whether a quote opens a literal depends only on what comes before it. */
  lemma OpensToo(before: string, quote: char, body1: string, body2: string, after: string, replaceNumbers: bool)
    requires |body2| <= |body1| && Opens(before, quote, body1, after, replaceNumbers)
    requires Complete(FingerprintOf(Query(before, quote, body1, after), replaceNumbers))
    requires Complete(FingerprintOf(Query(before, quote, body2, after), replaceNumbers))
    ensures Opens(before, quote, body2, after, replaceNumbers)
  {
    hide Run, Sound, Reach, Step;
    var q1, q2 := Query(before, quote, body1, after) + " ", Query(before, quote, body2, after) + " ";
    var n := |before|;
    assert q1[..n] == before == q2[..n];
    StartSound();
    PrefixAlike(q2, q1, START, 0, n, replaceNumbers);
    assert q1[..n + 1] == before + [quote] == q2[..n + 1];
    PrefixAlike(q2, q1, START, 0, n + 1, replaceNumbers);
    var st := Reach(q1, START, 0, n, replaceNumbers).st;
    RunReach(q1, START, 0, n, replaceNumbers);
    StepSound(q1, st, n, replaceNumbers);
    StepSound(q2, st, n, replaceNumbers);
    ReachNext(q1, START, 0, n, replaceNumbers);
    ReachNext(q2, START, 0, n, replaceNumbers);
  }

  // ---------------------------------------------------------------- the boundary

  /** What follows the literal in the query that tells an empty literal from another at the beginning. */
  function Telling(quote: char): string {
    [quote, quote] + "=-- "
  }

  predicate IsQuote(c: char) {
    c == '\'' || c == '"'
  }

  /** The state just behind the literal that begins the query. */
  function Begun(quote: char, o: nat): Scan {
    Left(START.(s := InQuote, quoteChar := quote, pr := quote), o)
  }

  lemma FirstStep(q: string, quote: char, replaceNumbers: bool)
    requires q != "" && q[0] == quote && IsQuote(quote)
    ensures Step(q, START, 0, replaceNumbers) == Continue(START.(s := InQuote, quoteChar := quote, pr := quote))
  {}

  /** The second literal is replaced by a question mark, and the offset of its quote stays behind. */
  lemma SecondLiteral(q: string, quote: char, o: nat, replaceNumbers: bool)
    requires IsQuote(quote) && 2 <= o && o + 7 == |q| && q[o] == quote && q[o + 1] == quote
    ensures Step(q, Begun(quote, o), o, replaceNumbers) ==
            Continue(Begun(quote, o).(s := InQuote, cpTo := o))
    ensures Step(q, Begun(quote, o).(s := InQuote, cpTo := o), o + 1, replaceNumbers) ==
            Continue(Begun(quote, o).(cpTo := o, out := "??", cpFrom := o + 2))
  {}

  /** The state behind the second literal. */
  function Twice(quote: char, o: nat): Scan {
    Begun(quote, o).(cpTo := o, out := "??", cpFrom := o + 2)
  }

  lemma OperatorStep(q: string, quote: char, o: nat, replaceNumbers: bool)
    requires 2 <= o && o + 7 == |q| && q[o + 2] == '='
    ensures Step(q, Twice(quote, o), o + 2, replaceNumbers) == Continue(Twice(quote, o).(s := InOp, pr := '='))
  {}

  lemma DashStep(q: string, st: Scan, qi: nat, replaceNumbers: bool)
    requires qi < |q| && q[qi] == '-' && st.cpTo <= st.cpFrom
    requires st.s == InOp || st.s == OpOrNumber || st.s == Unknown || st.s == InSpace
    ensures Step(q, st, qi, replaceNumbers) ==
            Continue(st.(s := if st.pr == '-' then InDash else OpOrNumber, pr := '-'))
  {
    hide OnDigit, OnParen, OnQuote, EmitAll;
  }

  /** The state behind the two dashes. */
  function Dashed(quote: char, o: nat): Scan {
    Twice(quote, o).(s := InDash, pr := '-')
  }

  lemma Dashes(q: string, quote: char, o: nat, replaceNumbers: bool)
    requires 2 <= o && o + 7 == |q| && q[o + 2] == '=' && q[o + 3] == '-' && q[o + 4] == '-'
    ensures Run(q, Twice(quote, o), o + 2, replaceNumbers) == Run(q, Dashed(quote, o), o + 5, replaceNumbers)
  {
    hide Step, Run;
    var t := Twice(quote, o).(s := InOp, pr := '=');
    var u := t.(s := OpOrNumber, pr := '-');
    OperatorStep(q, quote, o, replaceNumbers);
    RunOnce(q, Twice(quote, o), o + 2, replaceNumbers);
    DashStep(q, t, o + 3, replaceNumbers);
    RunOnce(q, t, o + 3, replaceNumbers);
    DashStep(q, u, o + 4, replaceNumbers);
    RunOnce(q, u, o + 4, replaceNumbers);
  }

  /** The comment begins: what precedes it is copied only if the last offset is above 2. */
  lemma CommentStep(q: string, quote: char, o: nat, replaceNumbers: bool)
    requires 2 <= o && o + 7 == |q| && q[o + 2] == '=' && q[o + 5] == ' '
    ensures var n := Step(q, Dashed(quote, o), o + 5, replaceNumbers);
            n.Continue? && n.st.s == InOLC && n.st.over == 0 && n.st.out == if o > 2 then "??=" else "??"
  {
    hide OnDigit, OnParen, OnQuote;
    if o > 2 {
      assert ToLower(q[o + 2..o + 3]) == "=";
    }
  }

  lemma CommentEnds(q: string, st: Scan, replaceNumbers: bool)
    requires q != "" && st.s == InOLC && st.over == 0
    ensures Run(q, st, |q| - 1, replaceNumbers) == Text(DropNul(Trim(st.out)), 0)
  {
    hide Change, Copy, Trim, DropNul;
    var n := Step(q, st, |q| - 1, replaceNumbers);
    assert n.Continue? && n.st.out == st.out && n.st.over == 0;
    RunOnce(q, st, |q| - 1, replaceNumbers);
  }

  lemma Texts()
    ensures DropNul(Trim("??")) == "??" && DropNul(Trim("??=")) == "??="
  {
    assert Trim("??") == "??" && Trim("??=") == "??=";
    assert DropNul("=") == "=" && DropNul("?=") == "?=" && DropNul("?") == "?";
    assert "??="[1..] == "?=" && "?="[1..] == "=" && "??"[1..] == "?";
  }

  /** A query that begins with a literal and goes on with the telling text: the sign counts only after a body. */
  lemma BeginsWithLiteral(quote: char, body: string, replaceNumbers: bool)
    requires IsQuote(quote) && Body(quote, false, body)
    ensures Opens("", quote, body, Telling(quote), replaceNumbers)
    ensures FingerprintOf(Query("", quote, body, Telling(quote)), replaceNumbers)
         == Text(if body == "" then "??" else "??=", 0)
  {
    hide Run, Sound, Step, Body, Trim, DropNul, Twice, Dashed;
    var q := Query("", quote, body, Telling(quote)) + " ";
    var o := |body| + 2;
    var st := START.(s := InQuote, quoteChar := quote, pr := quote);
    FirstStep(q, quote, replaceNumbers);
    assert Reach(q, st, 1, 1, replaceNumbers) == Continue(st);
    assert Reach(q, START, 0, 0, replaceNumbers) == Continue(START);
    Crosses("", quote, body, Telling(quote), st, replaceNumbers);
    assert Run(q, START, 0, replaceNumbers) == Run(q, Begun(quote, o), o, replaceNumbers);
    assert q[o..] == Telling(quote) + " ";
    assert |q| == o + 7 && q[o] == quote && q[o + 1] == quote && q[o + 2] == '=' && q[o + 3] == '-';
    assert q[o + 4] == '-' && q[o + 5] == ' ';
    SecondLiteral(q, quote, o, replaceNumbers);
    RunOnce(q, Begun(quote, o), o, replaceNumbers);
    RunOnce(q, Begun(quote, o).(s := InQuote, cpTo := o), o + 1, replaceNumbers);
    TwiceIs(quote, o);
    Dashes(q, quote, o, replaceNumbers);
    CommentStep(q, quote, o, replaceNumbers);
    RunOnce(q, Dashed(quote, o), o + 5, replaceNumbers);
    CommentEnds(q, Step(q, Dashed(quote, o), o + 5, replaceNumbers).st, replaceNumbers);
    Texts();
  }

  lemma TwiceIs(quote: char, o: nat)
    ensures Begun(quote, o).(cpTo := o, out := "??", cpFrom := o + 2) == Twice(quote, o)
  {}

  /** The two queries have the same fingerprint. */
  predicate Agree(before: string, quote: char, body1: string, body2: string, after: string, replaceNumbers: bool) {
    FingerprintOf(Query(before, quote, body1, after), replaceNumbers)
    == FingerprintOf(Query(before, quote, body2, after), replaceNumbers)
  }

  /** The quote opens a literal, and neither scan loses output. */
  predicate BothComplete(before: string, quote: char, body1: string, body2: string, after: string,
                         replaceNumbers: bool) {
    && Opens(before, quote, body1, after, replaceNumbers)
    && Complete(FingerprintOf(Query(before, quote, body1, after), replaceNumbers))
    && Complete(FingerprintOf(Query(before, quote, body2, after), replaceNumbers))
  }

  /**
    Two literal bodies are interchangeable in front of every continuation of the query if and only if
    something precedes the literal, or both are empty, or neither is.
   */
  lemma LiteralBoundary(before: string, quote: char, body1: string, body2: string, replaceNumbers: bool)
    requires IsQuote(quote) && Body(quote, false, body1) && Body(quote, false, body2)
    ensures (forall after :: BothComplete(before, quote, body1, body2, after, replaceNumbers) ==>
                             Agree(before, quote, body1, body2, after, replaceNumbers))
            <==> Comparable(before, body1, body2)
  {
    hide FingerprintOf, Body, Opens, Query, Complete;
    if Comparable(before, body1, body2) {
      forall after | BothComplete(before, quote, body1, body2, after, replaceNumbers)
        ensures Agree(before, quote, body1, body2, after, replaceNumbers)
      {
        LiteralInsensitive(before, quote, body1, body2, after, replaceNumbers);
      }
    } else {
      BeginsWithLiteral(quote, body1, replaceNumbers);
      BeginsWithLiteral(quote, body2, replaceNumbers);
      CompleteText("??");
      CompleteText("??=");
      assert BothComplete(before, quote, body1, body2, Telling(quote), replaceNumbers);
      assert !Agree(before, quote, body1, body2, Telling(quote), replaceNumbers);
    }
  }

  lemma CompleteText(t: string)
    ensures Complete(Text(t, 0))
  {}

  lemma SoundPar(st: Scan, p: nat)
    requires Sound(st, p) && p > 0
    ensures 0 <= st.firstPar < p
  {}
}
