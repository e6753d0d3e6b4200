/**
  What the fingerprint of a query is, for queries made of words, values, words with a value after an
  operator, lists of values and comments, with white space between them: a reference reading of the tokens,
  which knows nothing of states and offsets, gives the same text as the scan. Words come out in lower case,
  each value is a question mark, a list is "(?+)", white space is a single space, a comment is nothing, NULL
  is a value unless IS or NOT precedes it, and ASC in an ORDER BY is left out.
 */
module FingerprintTokens {
  import opened Fingerprint
  import opened FingerprintLiterals
  import opened FingerprintReach
  import N = FingerprintNumbers
  import L = FingerprintLists
  import C = FingerprintComments

  // ---------------------------------------------------------------- tokens

  predicate IsOperator(r: char) {
    r == '=' || r == '<' || r == '>' || r == '!'
  }

  /** A character that is part of a word wherever it stands. */
  predicate Plain(r: char) {
    && !IsDigit(r) && !IsSpace(r) && !IsOperator(r) && r != '\'' && r != '"' && r != '`' && r != '(' && r != ':'
    && r != '/' && r != '+' && r != '-' && r != '.' && r != '#' && r != '\0'
  }

  /** A character that may follow another in a word. */
  predicate Follows(pr: char, r: char, replaceNumbers: bool) {
    || Plain(r) || IsOperator(r) || (r == '.' && !IsOperator(pr))
    || (IsDigit(r) && !replaceNumbers && !IsOperator(pr) && pr != ',' && pr != '(')
  }

  predicate IsWord(w: string, replaceNumbers: bool) {
    && w != "" && (Plain(w[0]) || IsOperator(w[0]))
    && forall i :: 1 <= i < |w| ==> Follows(w[i - 1], w[i], replaceNumbers)
  }

  predicate IsWhite(t: string) {
    forall i :: 0 <= i < |t| ==> IsSpace(t[i])
  }

  datatype Value =
    | Numeral(sign: string, digits: string)
    | Quoted(quote: char, body: string)
  {
    predicate Ok() {
      match this
      case Numeral(sign, digits) => (sign == "" || sign == "+" || sign == "-") && N.IsNumeral(digits)
      case Quoted(quote, body) => IsQuote(quote) && Body(quote, false, body)
    }

    function Spelling(): string {
      match this
      case Numeral(sign, digits) => sign + digits
      case Quoted(quote, body) => [quote] + body + [quote]
    }
  }

  datatype Token =
    | Word(w: string)
    | Single(v: Value)
    | Pair(w: string, v: Value)
    | Listing(w: string, between: string, contents: string)
    | Comment(k: C.Kind, body: string)
    | Touching(w: string, k: C.Kind, body: string)
  {
    /** A comment, or a comment just behind a word: both end without white space. */
    predicate EndsInComment() {
      Comment? || Touching?
    }

    function Spelling(): string {
      match this
      case Word(w) => w
      case Single(v) => v.Spelling()
      case Pair(w, v) => w + v.Spelling()
      case Listing(w, between, contents) => w + between + "(" + contents + ")"
      case Comment(k, body) => k.Opener() + body + k.Closer()
      case Touching(w, k, body) => w + (k.Opener() + body + k.Closer())
    }
  }

  // ---------------------------------------------------------------- the reference reading

  datatype Clause = Plainly | Ordering | Updating

  /**
    What the last token leaves open: nothing, whether what it did not write will be copied after all, or
    whether a list has ended.
   */
  datatype Last = Closed | Pending | AfterList

  /**
    The reading of tokens: the pieces of the fingerprint, the last word, the clause, and whether a space
    is owed since a NULL or an ASC that was not written as a word.
   */
  datatype Reading = Reading(pieces: seq<string>, prev: string, clause: Clause, owed: bool, last: Last)

  const NOTHING := Reading([], "", Plainly, false, Closed)

  predicate IsNull(rd: Reading, l: string) {
    (l == "null" && rd.prev != "is" && rd.prev != "not") || l == "null,"
  }

  function NextClause(rd: Reading, l: string): Clause {
    if rd.prev == "order" && l == "by" then Ordering
    else if rd.prev == "key" && l == "update" then Updating
    else rd.clause
  }

  function TakeWord(rd: Reading, l: string): Reading {
    if IsNull(rd, l) then rd.(pieces := rd.pieces + [if l == "null," then "?," else "?"], owed := true, last := Closed)
    else if rd.clause == Ordering && l == "asc" then rd.(owed := true, last := Pending)
    else if rd.clause == Ordering && l == "asc," && rd.pieces != [] then
      var n := |rd.pieces| - 1;
      rd.(pieces := rd.pieces[..n] + [rd.pieces[n] + ","], owed := true, last := Pending)
    else
      Reading(rd.pieces + [l], l, NextClause(rd, l), false, Closed)
  }

  /** A comment is nothing, and neither is a word that it touches. */
  function TakeComment(rd: Reading, k: C.Kind): Reading {
    rd.(owed := rd.owed && !k.Hash?, last := Pending)
  }

  function Take(rd: Reading, t: Token): Reading {
    match t
    case Word(w) => TakeWord(rd, ToLower(w))
    case Single(_) => rd.(pieces := rd.pieces + ["?"], last := Closed)
    case Pair(w, _) =>
      var l := ToLower(w);
      rd.(pieces := rd.pieces + [l + (if rd.owed then " ?" else "?")], prev := l, owed := false, last := Closed)
    case Listing(w, _, contents) =>
      var l := ToLower(w);
      Reading(rd.pieces + [l + (if contents == "" then "()" else "(?+)")], l, Plainly, false, AfterList)
    case Comment(k, _) => TakeComment(rd, k)
    case Touching(_, k, _) => TakeComment(rd, k)
  }

  /** A word can begin here: after a list, only one that ends it. */
  predicate CanBegin(rd: Reading, w: string) {
    w != "" && (rd.last == AfterList ==> Plain(w[0]) && w[0] != ',')
  }

  /** The token may come next. USE as the first word and a CALL end the scan and are treated apart. */
  predicate Fits(rd: Reading, t: Token, replaceNumbers: bool) {
    match t
    case Word(w) =>
      && IsWord(w, replaceNumbers) && CanBegin(rd, w) && !(ToLower(w) == "use" && rd.prev == "")
      && (IsList(ToLower(w)) ==> rd.clause == Updating)
    case Single(v) => v.Ok() && rd.last == Closed
    case Pair(w, v) => IsWord(w, replaceNumbers) && CanBegin(rd, w) && IsOperator(w[|w| - 1]) && v.Ok()
    case Listing(w, between, contents) =>
      && IsWord(w, replaceNumbers) && CanBegin(rd, w) && IsList(ToLower(w)) && rd.clause != Updating
      && IsWhite(between) && (between == "" ==> rd.prev != "call") && L.IsValueList(contents)
    case Comment(k, body) => k.Holds(body) && rd.last != AfterList && (k.Dashes? ==> rd.last == Closed)
    case Touching(w, k, body) => IsWord(w, replaceNumbers) && CanBegin(rd, w) && k.Holds(body) && !k.Dashes?
  }

  /** A token and the white space behind it. */
  datatype Item = Item(token: Token, space: string) {
    predicate Ok() {
      IsWhite(space) && (token.EndsInComment() || space != "")
    }
  }

  function Spelled(items: seq<Item>): string {
    if items == [] then "" else items[0].token.Spelling() + items[0].space + Spelled(items[1..])
  }

  predicate Fitting(rd: Reading, items: seq<Item>, replaceNumbers: bool)
    decreases |items|
  {
    items == [] ||
    (&& Fits(rd, items[0].token, replaceNumbers) && items[0].Ok()
     && Fitting(Take(rd, items[0].token), items[1..], replaceNumbers))
  }

  function ReadOn(rd: Reading, items: seq<Item>): Reading
    decreases |items|
  {
    if items == [] then rd else ReadOn(Take(rd, items[0].token), items[1..])
  }

  /** The pieces, each with a space behind it. */
  function Flat(pieces: seq<string>): string {
    if pieces == [] then "" else Flat(pieces[..|pieces| - 1]) + pieces[|pieces| - 1] + " "
  }

  /** The pieces, with a space between any two. */
  function Joined(pieces: seq<string>): string {
    if pieces == [] then ""
    else if |pieces| == 1 then pieces[0]
    else Joined(pieces[..|pieces| - 1]) + " " + pieces[|pieces| - 1]
  }

  // ---------------------------------------------------------------- the scan between two tokens

  function StateOf(rd: Reading): Mode {
    if rd.last == AfterList then InValues
    else match rd.clause case Plainly => Unknown case Ordering => OrderBy case Updating => OnDupeKeyUpdate
  }

  /** A character that does not change what a sign or a quote after it means. */
  predicate Neutral(r: char) {
    r != '-' && r != '\\' && r != 'x' && r != 'b'
  }

  lemma SpaceIsSpace()
    ensures IsSpace(' ')
  {}

  lemma SpaceNeutral(r: char)
    requires IsSpace(r)
    ensures Neutral(r)
  {}

  /** The scan has read what the reading has, and stands just before a token. */
  predicate Agrees(st: Scan, rd: Reading, qi: nat) {
    && st.out == Flat(rd.pieces) && st.over == 0 && st.prevWord == rd.prev && st.addSpace == rd.owed && !st.escape
    && Neutral(st.pr) && st.sqlState == StateOf(rd)
    && st.valueNo == (if rd.last == AfterList then 1 else 0) && st.parOpen == 0 && st.parOpenTotal == 0
    && 0 <= st.cpFrom <= qi && st.cpTo <= st.cpFrom && (rd.last == Closed ==> st.cpFrom == qi) && 0 <= st.firstPar
    && (if rd.last == AfterList then st.s == MoreValuesOrUnknown && rd.clause == Plainly
        else st.s == Unknown || st.s == InSpace)
    && (rd.clause == Ordering ==> rd.pieces != [])
  }

  lemma AtStart()
    ensures Agrees(START, NOTHING, 0)
  {}

  lemma {:induction false} SpaceCollapses(q: string, st: Scan, rd: Reading, qi: nat, n: nat, replaceNumbers: bool)
    returns (t: Scan)
    requires qi <= n <= |q| && Agrees(st, rd, qi) && IsSpace(st.pr) && forall i :: qi <= i < n ==> IsSpace(q[i])
    ensures Reach(q, st, qi, n, replaceNumbers) == Continue(t) && Agrees(t, rd, n) && IsSpace(t.pr)
    decreases n - qi
  {
    if qi == n {
      t := st;
    } else {
      hide Change, Copy, IsSpace, Flat;
      var u := st.(cpFrom := qi + 1, pr := q[qi]);
      assert Step(q, st, qi, replaceNumbers) == Continue(u);
      t := SpaceCollapses(q, u, rd, qi + 1, n, replaceNumbers);
    }
  }

  // ---------------------------------------------------------------- words

  function ModeOf(r: char): Mode {
    if IsOperator(r) then InOp else InWord
  }

  /** The first character of a word is read. */
  function Started(st: Scan, qi: nat, r: char): Scan {
    st.(s := ModeOf(r), pr := r, cpFrom := qi, valueNo := 0,
        sqlState := if st.sqlState == InValues then Unknown else st.sqlState)
  }

  lemma PlainChange(q: string, st: Scan, qi: nat, replaceNumbers: bool)
    requires qi < |q| && Plain(q[qi]) && !(q[qi] == ',' && st.s == MoreValuesOrUnknown) && st.s != DivOrMLC
    ensures Change(q, st, qi, replaceNumbers, |q|) == Go(OnOther(st, qi))
  {
    hide OnOther, OnSpace, OnParen, OnDigit, OnOperator;
  }

  lemma OperatorChange(q: string, st: Scan, qi: nat, replaceNumbers: bool)
    requires qi < |q| && IsOperator(q[qi])
    ensures Change(q, st, qi, replaceNumbers, |q|) == Go(OnOperator(st, qi))
  {
    hide OnMark, OnSpace, OnParen, OnDigit, OnOperator;
  }

  lemma NothingSkipped(st: Scan, qi: nat, r: char, cap: nat)
    requires st.s == Unknown || st.s == InSpace || st.s == MoreValuesOrUnknown || st.s == InWord || st.s == InOp ||
             st.s == OpOrNumber || st.s == DivOrMLC || st.s == InDash
    requires !IsSpace(r) || !IsSpace(st.pr)
    ensures Skip(st, qi, r, cap) == Go(st)
  {}

  lemma PlainNotSpace(r: char)
    requires Plain(r) || IsOperator(r) || r == '.' || IsDigit(r) || r == '+' || r == '-'
    ensures !IsSpace(r)
  {}

  lemma WordBegins(q: string, st: Scan, rd: Reading, qi: nat, replaceNumbers: bool)
    requires qi < |q| && Agrees(st, rd, qi) && (Plain(q[qi]) || IsOperator(q[qi]))
    requires rd.last == AfterList ==> Plain(q[qi]) && q[qi] != ','
    ensures Step(q, st, qi, replaceNumbers) == Continue(Started(st, qi, q[qi]))
  {
    hide Skip, Change, Plain, IsSpace, IsOperator, Flat;
    PlainNotSpace(q[qi]);
    NothingSkipped(st, qi, q[qi], |q|);
    Distinct(q[qi]);
    if Plain(q[qi]) {
      PlainChange(q, st, qi, replaceNumbers);
    } else {
      OperatorChange(q, st, qi, replaceNumbers);
    }
  }

  lemma Distinct(r: char)
    ensures !(Plain(r) && IsOperator(r))
  {}

  /** A scan in a word, up to the character before qi. */
  predicate InsideWord(st: Scan, q: string, qi: nat) {
    && 0 < qi <= |q| && st.s == ModeOf(q[qi - 1]) && st.pr == q[qi - 1] && st.cpTo <= st.cpFrom
  }

  lemma WordGoes(q: string, st: Scan, qi: nat, replaceNumbers: bool)
    requires qi < |q| && InsideWord(st, q, qi) && Follows(q[qi - 1], q[qi], replaceNumbers)
    ensures Step(q, st, qi, replaceNumbers) == Continue(st.(s := ModeOf(q[qi]), pr := q[qi]))
  {
    hide Skip, Change, Plain, IsSpace, IsOperator, IsDigit;
    PlainNotSpace(q[qi]);
    NothingSkipped(st, qi, q[qi], |q|);
    Distinct(q[qi]);
    if Plain(q[qi]) {
      PlainChange(q, st, qi, replaceNumbers);
    } else if IsOperator(q[qi]) {
      OperatorChange(q, st, qi, replaceNumbers);
    } else {
      DigitOrPoint(q, st, qi, replaceNumbers);
    }
  }

  lemma DigitOrPoint(q: string, st: Scan, qi: nat, replaceNumbers: bool)
    requires qi < |q| && st.s == InWord && (q[qi] == '.' || (IsDigit(q[qi]) && !replaceNumbers && st.pr != '(' && st.pr != ','))
    ensures Change(q, st, qi, replaceNumbers, |q|) == Go(st) && !IsOperator(q[qi])
  {
    hide OnSpace, OnParen, OnOperator;
  }

  lemma {:induction false} WordRead(q: string, st: Scan, qi: nat, n: nat, replaceNumbers: bool)
    requires qi <= n <= |q| && InsideWord(st, q, qi)
    requires forall i :: qi <= i < n ==> Follows(q[i - 1], q[i], replaceNumbers)
    ensures Reach(q, st, qi, n, replaceNumbers) == Continue(st.(s := ModeOf(q[n - 1]), pr := q[n - 1]))
    decreases n - qi
  {
    hide Step, Follows, ModeOf;
    if qi < n {
      WordGoes(q, st, qi, replaceNumbers);
      WordRead(q, st.(s := ModeOf(q[qi]), pr := q[qi]), qi + 1, n, replaceNumbers);
    }
  }

  /** The scan at the end of a word. */
  function AtEnd(st: Scan, qi: nat, w: string): Scan
    requires w != ""
  {
    Started(st, qi, w[0]).(s := ModeOf(w[|w| - 1]), pr := w[|w| - 1])
  }

  lemma WordReadWhole(q: string, st: Scan, rd: Reading, qi: nat, w: string, replaceNumbers: bool)
    requires Agrees(st, rd, qi) && Stands(q, qi, w) && IsWord(w, replaceNumbers) && CanBegin(rd, w)
    ensures Reach(q, st, qi, qi + |w|, replaceNumbers) == Continue(AtEnd(st, qi, w))
  {
    hide Step, Follows, ModeOf, Plain, IsOperator, Flat;
    StandsAt(q, qi, w);
    assert q[qi + 0] == w[0];
    WordBegins(q, st, rd, qi, replaceNumbers);
    var t := Started(st, qi, w[0]);
    assert forall i :: qi + 1 <= i < qi + |w| ==> Follows(q[i - 1], q[i], replaceNumbers) by {
      forall i | qi + 1 <= i < qi + |w|
        ensures Follows(q[i - 1], q[i], replaceNumbers)
      {
        assert q[i] == q[qi + (i - qi)] == w[i - qi] && q[i - 1] == q[qi + (i - 1 - qi)] == w[i - 1 - qi];
      }
    }
    assert q[qi + |w| - 1] == q[qi + (|w| - 1)] == w[|w| - 1];
    WordRead(q, t, qi + 1, qi + |w|, replaceNumbers);
  }

  // ---------------------------------------------------------------- the end of a word

  /** The scan at the end of the word l, which is not yet copied. */
  predicate Ending(u: Scan, rd: Reading, qi: nat, l: string) {
    && u.out == Flat(rd.pieces) && u.over == 0 && u.prevWord == rd.prev && u.addSpace == rd.owed && !u.escape
    && u.sqlState == StateOf(rd.(last := Closed)) && u.valueNo == 0 && u.parOpen == 0 && u.parOpenTotal == 0
    && u.cpFrom == qi && u.cpTo <= qi && 0 <= u.firstPar && |l| > 0 && (rd.clause == Ordering ==> rd.pieces != [])
  }

  lemma AtEndIs(st: Scan, rd: Reading, qi: nat, w: string)
    requires Agrees(st, rd, qi) && w != ""
    ensures Ending(AtEnd(st, qi, w), rd, qi, ToLower(w))
  {
    hide Flat, ToLower, ModeOf;
  }

  /** A word that is written as it is. */
  predicate Ordinary(rd: Reading, l: string) {
    && !(l == "use" && rd.prev == "") && !IsNull(rd, l) && (IsList(l) ==> rd.clause == Updating)
    && !(rd.clause == Ordering && (l == "asc" || l == "asc," || l == "asc "))
  }

  lemma OrdinaryEnds(u: Scan, rd: Reading, qi: nat, l: string, cap: nat)
    requires Ending(u, rd, qi, l) && Ordinary(rd, l)
    ensures EndWord(u, qi + |l|, l, cap) ==
            Go(u.(s := InSpace, cpTo := qi + |l|, addSpace := true,
                  sqlState := StateOf(Reading([], "", NextClause(rd, l), false, Closed))))
  {
    hide NullValue, DropAsc, Flat;
  }

  lemma FlatAppend(pieces: seq<string>, p: string)
    ensures Flat(pieces + [p]) == Flat(pieces) + p + " "
  {
    assert (pieces + [p])[..|pieces|] == pieces;
  }

  /** What is copied when an ordinary word has ended. */
  lemma OrdinaryCopied(v: Scan, rd: Reading, qi: nat, l: string, cap: nat)
    requires v.out == Flat(rd.pieces) && v.over == 0 && v.addSpace && v.cpTo == qi + |l|
    requires |Flat(rd.pieces + [l])| <= cap && (IsList(l) ==> v.sqlState == OnDupeKeyUpdate)
    ensures Copied(v, l, cap) ==
            Go(v.(out := Flat(rd.pieces + [l]), prevWord := l, cpFrom := qi + |l| + 1, addSpace := false))
  {
    hide IsList, Flat;
    FlatAppend(rd.pieces, l);
  }

  lemma OrdinaryTaken(q: string, u: Scan, rd: Reading, qi: nat, w: string, replaceNumbers: bool) returns (t: Scan)
    requires Stands(q, qi, w) && qi + |w| < |q| && IsSpace(q[qi + |w|]) && (u.s == InWord || u.s == InOp)
    requires Ending(u, rd, qi, ToLower(w)) && Ordinary(rd, ToLower(w)) && !IsSpace(u.pr)
    requires |Flat(rd.pieces + [ToLower(w)])| <= |q|
    ensures Step(q, u, qi + |w|, replaceNumbers) == Continue(t)
    ensures Agrees(t, Reading(rd.pieces + [ToLower(w)], ToLower(w), NextClause(rd, ToLower(w)), false, Closed), qi + |w| + 1)
    ensures IsSpace(t.pr)
  {
    hide Skip, EndWord, ToLower, IsSpace, Flat, Copied, IsList, Ordinary;
    var e, l := qi + |w|, ToLower(w);
    NothingSkipped(u, e, q[e], |q|);
    SpaceChange(q, u, e, replaceNumbers);
    OrdinaryEnds(u, rd, qi, l, |q|);
    var v := EndWord(u, e, l, |q|).st;
    OrdinaryList(rd, l);
    OrdinaryCopied(v, rd, qi, l, |q|);
    FlatAppend(rd.pieces, l);
    t := Copied(v, l, |q|).st.(pr := q[e]);
    SpaceNeutral(q[e]);
  }

  lemma OrdinaryList(rd: Reading, l: string)
    requires Ordinary(rd, l)
    ensures IsList(l) ==> NextClause(rd, l) == Updating
  {}

  lemma SpaceChange(q: string, u: Scan, e: nat, replaceNumbers: bool)
    requires e < |q| && IsSpace(q[e]) && (u.s == InWord || u.s == InOp) && 0 <= u.cpFrom <= e
    ensures Change(q, u, e, replaceNumbers, |q|) == EndWord(u, e, ToLower(q[u.cpFrom..e]), |q|)
  {
    hide EndWord, ToLower;
  }

  lemma NullEnds(u: Scan, rd: Reading, qi: nat, l: string, cap: nat)
    requires Ending(u, rd, qi, l) && IsNull(rd, l)
    requires var piece := if l == "null," then "?," else "?"; |Flat(rd.pieces + [piece])| <= cap
    ensures var piece := if l == "null," then "?," else "?";
            EndWord(u, qi + |l|, l, cap) ==
            Go(u.(out := Flat(rd.pieces + [piece]), s := InSpace, cpFrom := qi + |l| + 1, cpTo := qi + |l|, addSpace := true))
  {
    hide DropAsc, Flat;
    FlatAppend(rd.pieces, if l == "null," then "?," else "?");
  }

  lemma NullTaken(q: string, u: Scan, rd: Reading, qi: nat, w: string, replaceNumbers: bool) returns (t: Scan)
    requires Stands(q, qi, w) && qi + |w| < |q| && IsSpace(q[qi + |w|]) && (u.s == InWord || u.s == InOp)
    requires Ending(u, rd, qi, ToLower(w)) && IsNull(rd, ToLower(w)) && !IsSpace(u.pr)
    requires |Flat(TakeWord(rd, ToLower(w)).pieces)| <= |q|
    ensures Step(q, u, qi + |w|, replaceNumbers) == Continue(t)
    ensures Agrees(t, TakeWord(rd, ToLower(w)), qi + |w| + 1) && IsSpace(t.pr)
  {
    hide Skip, EndWord, ToLower, IsSpace, Flat, Copied, IsNull;
    var e, l := qi + |w|, ToLower(w);
    NothingSkipped(u, e, q[e], |q|);
    SpaceChange(q, u, e, replaceNumbers);
    NullEnds(u, rd, qi, l, |q|);
    t := EndWord(u, e, l, |q|).st.(pr := q[e]);
    SpaceNeutral(q[e]);
  }

  predicate IsAsc(rd: Reading, l: string) {
    rd.clause == Ordering && (l == "asc" || l == "asc,")
  }

  lemma FlatComma(pieces: seq<string>)
    requires pieces != []
    ensures var n := |pieces| - 1;
            && Flat(pieces) != ""
            && Flat(pieces[..n] + [pieces[n] + ","]) == Flat(pieces)[..|Flat(pieces)| - 1] + ", "
  {
    var n := |pieces| - 1;
    FlatAppend(pieces[..n], pieces[n] + ",");
    assert Flat(pieces) == Flat(pieces[..n]) + pieces[n] + " ";
    assert Flat(pieces)[..|Flat(pieces)| - 1] == Flat(pieces[..n]) + pieces[n];
  }

  lemma AscEnds(u: Scan, rd: Reading, qi: nat, l: string, cap: nat)
    requires Ending(u, rd, qi, l) && IsAsc(rd, l) && |Flat(TakeWord(rd, l).pieces)| <= cap
    ensures EndWord(u, qi + |l|, l, cap) ==
            Go(u.(out := Flat(TakeWord(rd, l).pieces), s := InSpace, cpFrom := qi + |l|, cpTo := qi + |l|, addSpace := true))
  {
    hide NullValue, Flat;
    FlatComma(rd.pieces);
  }

  lemma AscTaken(q: string, u: Scan, rd: Reading, qi: nat, w: string, replaceNumbers: bool) returns (t: Scan)
    requires Stands(q, qi, w) && qi + |w| < |q| && IsSpace(q[qi + |w|]) && (u.s == InWord || u.s == InOp)
    requires Ending(u, rd, qi, ToLower(w)) && IsAsc(rd, ToLower(w)) && !IsSpace(u.pr)
    requires |Flat(TakeWord(rd, ToLower(w)).pieces)| <= |q|
    ensures Step(q, u, qi + |w|, replaceNumbers) == Continue(t)
    ensures Agrees(t, TakeWord(rd, ToLower(w)), qi + |w| + 1) && IsSpace(t.pr)
  {
    hide Skip, EndWord, ToLower, IsSpace, Flat, Copied;
    var e, l := qi + |w|, ToLower(w);
    NothingSkipped(u, e, q[e], |q|);
    SpaceChange(q, u, e, replaceNumbers);
    AscEnds(u, rd, qi, l, |q|);
    t := EndWord(u, e, l, |q|).st.(pr := q[e]);
    SpaceNeutral(q[e]);
  }

  lemma LastOfWord(w: string, replaceNumbers: bool)
    requires IsWord(w, replaceNumbers)
    ensures !IsSpace(w[|w| - 1])
  {
    assert |w| > 1 ==> Follows(w[|w| - 2], w[|w| - 1], replaceNumbers);
  }

  lemma Kinds(rd: Reading, l: string)
    requires !(l == "use" && rd.prev == "") && (IsList(l) ==> rd.clause == Updating) && l != "asc "
    requires rd.clause == Ordering ==> rd.pieces != []
    ensures IsNull(rd, l) || IsAsc(rd, l) ||
            (Ordinary(rd, l) && TakeWord(rd, l) == Reading(rd.pieces + [l], l, NextClause(rd, l), false, Closed))
  {}

  lemma NotWhite(w: string, replaceNumbers: bool)
    requires IsWord(w, replaceNumbers)
    ensures ToLower(w) != "asc "
  {
    LastOfWord(w, replaceNumbers);
    assert ToLower(w)[|w| - 1] == Lower(w[|w| - 1]) != ' ';
  }

  /** A word is read, up to and including the white space behind it. */
  lemma WordTaken(q: string, st: Scan, rd: Reading, qi: nat, w: string, replaceNumbers: bool) returns (t: Scan)
    requires Agrees(st, rd, qi) && Fits(rd, Word(w), replaceNumbers) && Stands(q, qi, w)
    requires qi + |w| < |q| && IsSpace(q[qi + |w|]) && |Flat(TakeWord(rd, ToLower(w)).pieces)| <= |q|
    ensures Reach(q, st, qi, qi + |w| + 1, replaceNumbers) == Continue(t)
    ensures Agrees(t, TakeWord(rd, ToLower(w)), qi + |w| + 1) && IsSpace(t.pr)
  {
    hide Step, Reach, ToLower, IsSpace, Flat, IsWord, IsNull, IsAsc, Ordinary, IsList, TakeWord, Agrees, Ending;
    var u := AtEnd(st, qi, w);
    WordReadWhole(q, st, rd, qi, w, replaceNumbers);
    AtEndIs(st, rd, qi, w);
    LastOfWord(w, replaceNumbers);
    NotWhite(w, replaceNumbers);
    EndingOrdered(u, rd, qi, ToLower(w));
    Kinds(rd, ToLower(w));
    if IsNull(rd, ToLower(w)) {
      t := NullTaken(q, u, rd, qi, w, replaceNumbers);
    } else if IsAsc(rd, ToLower(w)) {
      t := AscTaken(q, u, rd, qi, w, replaceNumbers);
    } else {
      t := OrdinaryTaken(q, u, rd, qi, w, replaceNumbers);
    }
    ReachStep(q, st, qi, qi + |w|, u, t, replaceNumbers);
  }

  lemma EndingOrdered(u: Scan, rd: Reading, qi: nat, l: string)
    requires Ending(u, rd, qi, l)
    ensures rd.clause == Ordering ==> rd.pieces != []
  {}

  // ---------------------------------------------------------------- values

  /** The length of what comes before the first digit, or the opening quote: a sign, or nothing. */
  function SignLength(v: Value): nat {
    if v.Numeral? then |v.sign| else 0
  }

  /** The scan just behind the first digit or the opening quote of a value that begins at b. */
  predicate InsideValue(y: Scan, v: Value, b: nat) {
    && y.cpTo == b && !y.escape && y.over == 0 && y.sqlState != InMySQLCode && y.sqlState != InValues
    && (if v.Numeral? then y.s == InNumber else y.s == InQuote && y.quoteChar == v.quote)
  }

  /** The scan just behind a value and the white space after it: a question mark and a space are written. */
  predicate Valued(t: Scan, y: Scan, e: nat, r: char) {
    && t == y.(out := y.out + "? ", cpFrom := e + 1, cpTo := t.cpTo, s := Unknown, pr := r)
    && t.cpTo <= e
  }

  lemma SpaceAfterMark(q: string, z: Scan, e: nat, replaceNumbers: bool)
    requires e < |q| && IsSpace(q[e]) && z.s == Unknown && z.over == 0 && |z.out| < |q| && z.cpTo <= e
    requires z.out != "" && z.out[|z.out| - 1] == '?'
    ensures N.Resume(q, z, e, replaceNumbers) ==
            Continue(z.(out := z.out + " ", cpFrom := e + 1, pr := q[e]))
  {
    hide OnDigit, OnParen, OnQuote, OnMark;
  }

  lemma NumberTaken(q: string, y: Scan, v: Value, b: nat, e: nat, replaceNumbers: bool) returns (t: Scan)
    requires v.Numeral? && v.Ok() && Stands(q, b, v.Spelling()) && e == b + |v.Spelling()| < |q| && IsSpace(q[e])
    requires InsideValue(y, v, b) && |y.out| + 2 <= |q|
    ensures Reach(q, y, b + SignLength(v) + 1, e + 1, replaceNumbers) == Continue(t) && Valued(t, y, e, q[e])
  {
    hide Step, Reach, IsSpace, InNumeral, N.Resume, N.Terminates;
    var p := b + SignLength(v) + 1;
    StandsAt(q, b, v.Spelling());
    assert forall i :: p <= i < e ==> InNumeral(q[i]) by {
      forall i | p <= i < e
        ensures InNumeral(q[i])
      {
        assert q[i] == q[b + (i - b)] == v.Spelling()[i - b] == v.digits[i - b - |v.sign|];
      }
    }
    N.NumeralSkipped(q, y, p, e, replaceNumbers);
    SpaceTerminates(q[e]);
    N.NumeralEnds(q, y, e, replaceNumbers);
    var z := N.Counted(y, e);
    SpaceAfterMark(q, z, e, replaceNumbers);
    t := z.(out := z.out + " ", cpFrom := e + 1, pr := q[e]);
    assert y.out + "?" + " " == y.out + "? ";
    ReachStep(q, y, p, e, y, t, replaceNumbers);
  }

  lemma SpaceTerminates(r: char)
    requires IsSpace(r)
    ensures N.Terminates(r)
  {}

  lemma LiteralTaken(q: string, y: Scan, v: Value, b: nat, e: nat, replaceNumbers: bool) returns (t: Scan)
    requires v.Quoted? && v.Ok() && Stands(q, b, v.Spelling()) && e == b + |v.Spelling()| < |q| && IsSpace(q[e])
    requires InsideValue(y, v, b) && |y.out| + 2 <= |q| && y.pr == v.quote
    ensures Reach(q, y, b + 1, e + 1, replaceNumbers) == Continue(t) && Valued(t, y, e, q[e])
  {
    hide Step, Reach, IsSpace, N.Resume, Body;
    StandsAt(q, b, v.Spelling());
    assert q[b + 1..e - 1] == v.Spelling()[1..|v.body| + 1] == v.body;
    BodySkipped(q, y, b + 1, e - 1, replaceNumbers);
    assert y.(escape := false) == y;
    assert q[e - 1] == q[b + (|v.body| + 1)] == v.quote;
    ClosingStep(q, y, e - 1, replaceNumbers);
    var z := Left(y, e);
    ReachStep(q, y, b + 1, e - 1, y, z, replaceNumbers);
    QuoteNotSpace(v.quote);
    ResumeIsStep(q, z, e, replaceNumbers);
    SpaceAfterMark(q, z, e, replaceNumbers);
    t := z.(out := z.out + " ", cpFrom := e + 1, pr := q[e]);
    assert y.out + "?" + " " == y.out + "? ";
    ReachStep(q, y, b + 1, e, z, t, replaceNumbers);
  }

  lemma QuoteNotSpace(r: char)
    requires IsQuote(r)
    ensures !IsSpace(r)
  {}

  lemma ResumeIsStep(q: string, z: Scan, e: nat, replaceNumbers: bool)
    requires e < |q| && z.s == Unknown && !IsSpace(z.pr)
    ensures Step(q, z, e, replaceNumbers) == N.Resume(q, z, e, replaceNumbers)
  {
    hide Change, Copy;
  }

  /** From inside the value to behind the white space after it. */
  lemma ValueTaken(q: string, y: Scan, v: Value, b: nat, e: nat, replaceNumbers: bool) returns (t: Scan)
    requires v.Ok() && Stands(q, b, v.Spelling()) && e == b + |v.Spelling()| < |q| && IsSpace(q[e])
    requires InsideValue(y, v, b) && |y.out| + 2 <= |q| && (v.Quoted? ==> y.pr == v.quote)
    ensures b + SignLength(v) + 1 <= e + 1
    ensures Reach(q, y, b + SignLength(v) + 1, e + 1, replaceNumbers) == Continue(t) && Valued(t, y, e, q[e])
  {
    hide Reach, IsSpace, Stands;
    if v.Numeral? {
      t := NumberTaken(q, y, v, b, e, replaceNumbers);
    } else {
      t := LiteralTaken(q, y, v, b, e, replaceNumbers);
    }
  }

  // ---------------------------------------------------------------- the beginning of a value

  /** Ready for a value at b: between tokens, or behind an operator, with the word before it not yet copied. */
  predicate ReadyFor(z: Scan, b: nat) {
    && (z.s == Unknown || z.s == InSpace || z.s == InOp) && z.cpTo <= z.cpFrom && 0 <= z.cpFrom <= b && z.over == 0
    && !z.escape && Neutral(z.pr)
  }

  /** The first digit or the quote of a value, before anything is copied. */
  function Opening(z: Scan, v: Value, b: nat): Scan {
    if v.Numeral? then z.(s := InNumber, cpTo := b)
    else z.(s := InQuote, cpTo := b, quoteChar := v.quote)
  }

  lemma SignedBegins(q: string, z: Scan, b: nat, replaceNumbers: bool)
    requires b + 1 < |q| && ReadyFor(z, b) && (q[b] == '+' || q[b] == '-') && IsDigit(q[b + 1])
    ensures Step(q, z, b, replaceNumbers) == Continue(z.(s := OpOrNumber, pr := q[b]))
    ensures Skip(z.(s := OpOrNumber, pr := q[b]), b + 1, q[b + 1], |q|) == Go(z.(s := OpOrNumber, pr := q[b]))
    ensures Change(q, z.(s := OpOrNumber, pr := q[b]), b + 1, replaceNumbers, |q|) ==
            Go(z.(s := InNumber, cpTo := b, pr := q[b]))
  {
    hide OnParen, OnSpace, OnQuote, Copied;
  }

  lemma UnsignedBegins(q: string, z: Scan, v: Value, b: nat, replaceNumbers: bool)
    requires b < |q| && ReadyFor(z, b) && v.Ok() && q[b] == (if v.Numeral? then v.digits[0] else v.quote)
    ensures Skip(z, b, q[b], |q|) == Go(z) && Change(q, z, b, replaceNumbers, |q|) == Go(Opening(z, v, b))
  {
    hide OnParen, OnSpace, OnMark, Body;
  }

  lemma ValueStarts(v: Value)
    requires v.Ok()
    ensures v.Spelling() != ""
    ensures v.Numeral? ==> SignLength(v) < |v.Spelling()| && IsDigit(v.Spelling()[SignLength(v)])
    ensures SignLength(v) == 0 ==> v.Spelling()[0] == if v.Numeral? then v.digits[0] else v.quote
    ensures SignLength(v) != 0 ==> SignLength(v) == 1 && (v.Spelling()[0] == '+' || v.Spelling()[0] == '-')
  {
    hide Body, InNumeral;
  }

  /** The value begins: what is pending before it is copied. */
  lemma ValueBegins(q: string, z: Scan, v: Value, b: nat, replaceNumbers: bool)
    requires ReadyFor(z, b) && v.Ok() && Stands(q, b, v.Spelling())
    requires Copy(q, Opening(z, v, b), |q|).Go?
    ensures var f := b + SignLength(v) + 1;
            && f <= |q|
            && Reach(q, z, b, f, replaceNumbers) == Continue(Copy(q, Opening(z, v, b), |q|).st.(pr := q[f - 1]))
  {
    hide Skip, Change, Copy, IsDigit;
    StandsAt(q, b, v.Spelling());
    ValueStarts(v);
    assert q[b] == q[b + 0] == v.Spelling()[0];
    if SignLength(v) == 0 {
      UnsignedBegins(q, z, v, b, replaceNumbers);
      assert Reach(q, z, b, b, replaceNumbers) == Continue(z);
      ReachStep(q, z, b, b, z, Copy(q, Opening(z, v, b), |q|).st.(pr := q[b]), replaceNumbers);
    } else {
      SignedBegins(q, z, b, replaceNumbers);
      var x := z.(s := OpOrNumber, pr := q[b]);
      assert Reach(q, z, b, b, replaceNumbers) == Continue(z);
      ReachStep(q, z, b, b, z, x, replaceNumbers);
      N.CopyPrevious(q, Opening(z, v, b), |q|, q[b]);
      assert z.(s := InNumber, cpTo := b, pr := q[b]) == Opening(z, v, b).(pr := q[b]);
      ReachStep(q, z, b, b + 1, x, Copy(q, Opening(z, v, b), |q|).st.(pr := q[b + 1]), replaceNumbers);
    }
  }

  /** The scan just behind the first digit or the quote of a value that is a token of its own. */
  function SingleState(st: Scan, v: Value, qi: nat, r: char): Scan {
    Opening(st, v, qi).(pr := r)
  }

  lemma SingleReady(q: string, st: Scan, rd: Reading, qi: nat, v: Value, r: char)
    requires Agrees(st, rd, qi) && rd.last == Closed
    ensures ReadyFor(st, qi) && Copy(q, Opening(st, v, qi), |q|) == Go(Opening(st, v, qi))
    ensures InsideValue(SingleState(st, v, qi, r), v, qi)
  {
    hide Flat, Copied;
  }

  lemma SingleAgrees(st: Scan, rd: Reading, qi: nat, v: Value, r: char, t: Scan, e: nat, space: char)
    requires Agrees(st, rd, qi) && rd.last == Closed && qi <= e && IsSpace(space)
    requires Valued(t, SingleState(st, v, qi, r), e, space)
    ensures Agrees(t, Take(rd, Single(v)), e + 1)
  {
    hide Flat, IsSpace;
    SpaceNeutral(space);
    FlatAppend(rd.pieces, "?");
    assert st.out + "? " == st.out + "?" + " ";
  }

  lemma SingleTaken(q: string, st: Scan, rd: Reading, qi: nat, v: Value, replaceNumbers: bool) returns (t: Scan)
    requires Agrees(st, rd, qi) && Fits(rd, Single(v), replaceNumbers) && Stands(q, qi, v.Spelling())
    requires var e := qi + |v.Spelling()|; e < |q| && IsSpace(q[e])
    requires |Flat(rd.pieces + ["?"])| <= |q|
    ensures var e := qi + |v.Spelling()|;
            && Reach(q, st, qi, e + 1, replaceNumbers) == Continue(t)
            && Agrees(t, Take(rd, Single(v)), e + 1) && IsSpace(t.pr)
  {
    hide Reach, IsSpace, Flat, Stands, Value.Ok, Value.Spelling, InsideValue, ReadyFor, Copy, Take;
    var e, f := qi + |v.Spelling()|, qi + SignLength(v) + 1;
    var x := Opening(st, v, qi);
    SingleReady(q, st, rd, qi, v, '0');
    ValueBegins(q, st, v, qi, replaceNumbers);
    var y := SingleState(st, v, qi, q[f - 1]);
    SingleReady(q, st, rd, qi, v, q[f - 1]);
    QuoteRead(q, v, qi);
    FlatAppend(rd.pieces, "?");
    t := ValueTaken(q, y, v, qi, e, replaceNumbers);
    SingleAgrees(st, rd, qi, v, q[f - 1], t, e, q[e]);
    ReachJoin(q, st, qi, f, e + 1, replaceNumbers);
  }

  lemma QuoteRead(q: string, v: Value, b: nat)
    requires v.Ok() && Stands(q, b, v.Spelling())
    ensures v.Quoted? ==> b < |q| && q[b] == v.quote
  {
    hide Body;
    StandsAt(q, b, v.Spelling());
    if v.Quoted? {
      assert q[b] == q[b + 0] == v.Spelling()[0];
    }
  }

  lemma OperatorNoList(w: string)
    requires w != "" && IsOperator(w[|w| - 1])
    ensures !IsList(ToLower(w))
  {
    assert ToLower(w)[|w| - 1] == w[|w| - 1];
  }

  function Gap(rd: Reading): string {
    if rd.owed then " " else ""
  }

  /** The scan just behind the first digit or the quote of a value after a word: the word is copied. */
  function PairState(st: Scan, rd: Reading, qi: nat, w: string, v: Value, r: char): Scan
    requires w != ""
  {
    var b, l := qi + |w|, ToLower(w);
    Opening(AtEnd(st, qi, w), v, b).(out := st.out + l + Gap(rd), prevWord := l, addSpace := false,
                                     cpFrom := b + |Gap(rd)|, pr := r)
  }

  lemma PairBegins(q: string, st: Scan, rd: Reading, qi: nat, w: string, v: Value, replaceNumbers: bool)
    requires Agrees(st, rd, qi) && Fits(rd, Pair(w, v), replaceNumbers) && Stands(q, qi, w + v.Spelling())
    requires |st.out| + |w| + 1 <= |q|
    ensures var f := qi + |w| + SignLength(v) + 1;
            f <= |q| && Reach(q, st, qi, f, replaceNumbers) == Continue(PairState(st, rd, qi, w, v, q[f - 1]))
  {
    hide Reach, IsSpace, Flat, IsWord, ToLower, IsList, Copy, Plain, AtEnd, Agrees, Value.Ok, Stands, ReadyFor;
    var b, f := qi + |w|, qi + |w| + SignLength(v) + 1;
    StandsApart(q, qi, w, v.Spelling());
    var u := AtEnd(st, qi, w);
    WordReadWhole(q, st, rd, qi, w, replaceNumbers);
    PairReady(st, rd, qi, w);
    PairCopy(q, u, qi, w, v);
    ValueBegins(q, u, v, b, replaceNumbers);
    ReachJoin(q, st, qi, b, f, replaceNumbers);
  }

  lemma PairCopy(q: string, u: Scan, qi: nat, w: string, v: Value)
    requires Stands(q, qi, w) && w != "" && IsOperator(w[|w| - 1]) && u.cpFrom == qi && u.over == 0
    requires |u.out| + |w| + 1 <= |q|
    ensures var x := Opening(u, v, qi + |w|);
            var gap := if u.addSpace then " " else "";
            Copy(q, x, |q|) == Go(x.(out := u.out + ToLower(w) + gap, prevWord := ToLower(w), addSpace := false,
                                     cpFrom := qi + |w| + |gap|))
  {
    hide Copied, ToLower, IsList;
    OperatorNoList(w);
    N.WordCopied(Opening(u, v, qi + |w|), ToLower(w), |q|);
  }

  lemma PairReady(st: Scan, rd: Reading, qi: nat, w: string)
    requires Agrees(st, rd, qi) && w != "" && IsOperator(w[|w| - 1])
    ensures var u := AtEnd(st, qi, w);
            ReadyFor(u, qi + |w|) && u.cpFrom == qi && u.addSpace == rd.owed && u.out == st.out && u.over == 0
  {
    hide Flat, IsSpace;
  }

  lemma PairInside(st: Scan, rd: Reading, qi: nat, w: string, v: Value, r: char)
    requires Agrees(st, rd, qi) && w != "" && IsOperator(w[|w| - 1])
    ensures var y := PairState(st, rd, qi, w, v, r);
            InsideValue(y, v, qi + |w|) && y.out == st.out + ToLower(w) + Gap(rd) && y.pr == r
  {
    hide Flat, IsSpace;
  }

  lemma PairFlat(rd: Reading, w: string, v: Value)
    ensures Flat(Take(rd, Pair(w, v)).pieces) == Flat(rd.pieces) + ToLower(w) + Gap(rd) + "? "
  {
    hide Flat, ToLower;
    var l := ToLower(w);
    FlatAppend(rd.pieces, l + (if rd.owed then " ?" else "?"));
    assert Flat(rd.pieces) + (l + (if rd.owed then " ?" else "?")) + " " == Flat(rd.pieces) + l + Gap(rd) + "? ";
  }

  lemma PairAgrees(st: Scan, rd: Reading, qi: nat, w: string, v: Value, r: char, t: Scan, e: nat, space: char)
    requires Agrees(st, rd, qi) && w != "" && qi + |w| <= e && IsSpace(space)
    requires Valued(t, PairState(st, rd, qi, w, v, r), e, space)
    ensures Agrees(t, Take(rd, Pair(w, v)), e + 1)
  {
    hide Flat, IsSpace, ToLower;
    SpaceNeutral(space);
    PairFlat(rd, w, v);
  }

  lemma PairTaken(q: string, st: Scan, rd: Reading, qi: nat, w: string, v: Value, replaceNumbers: bool)
    returns (t: Scan)
    requires Agrees(st, rd, qi) && Fits(rd, Pair(w, v), replaceNumbers) && Stands(q, qi, w + v.Spelling())
    requires var e := qi + |w| + |v.Spelling()|; e < |q| && IsSpace(q[e])
    requires |Flat(Take(rd, Pair(w, v)).pieces)| <= |q|
    ensures var e := qi + |w| + |v.Spelling()|;
            && Reach(q, st, qi, e + 1, replaceNumbers) == Continue(t)
            && Agrees(t, Take(rd, Pair(w, v)), e + 1) && IsSpace(t.pr)
  {
    hide Reach, IsSpace, Flat, IsWord, InsideValue, Take, PairState;
    var b, e := qi + |w|, qi + |w| + |v.Spelling()|;
    StandsApart(q, qi, w, v.Spelling());
    PairFlat(rd, w, v);
    PairBegins(q, st, rd, qi, w, v, replaceNumbers);
    var f := b + SignLength(v) + 1;
    QuoteRead(q, v, b);
    PairInside(st, rd, qi, w, v, q[f - 1]);
    t := ValueTaken(q, PairState(st, rd, qi, w, v, q[f - 1]), v, b, e, replaceNumbers);
    PairAgrees(st, rd, qi, w, v, q[f - 1], t, e, q[e]);
    ReachJoin(q, st, qi, f, e + 1, replaceNumbers);
  }

  // ---------------------------------------------------------------- lists

  /** The scan behind the word of a list, up to the bracket. */
  function Announced(st: Scan, qi: nat, w: string, pr: char): Scan
    requires w != ""
  {
    var e, l := qi + |w|, ToLower(w);
    AtEnd(st, qi, w).(out := st.out + l, prevWord := l, cpFrom := e, cpTo := e, addSpace := false, s := InValues,
                      sqlState := InValues, pr := pr)
  }

  /** The scan just behind the bracket that opens a list. */
  function Bracketed(st: Scan, qi: nat, w: string, pr: char, p: nat): Scan
    requires w != ""
  {
    Announced(st, qi, w, pr).(parOpen := 1, firstPar := p - 1)
  }

  lemma ListWord(w: string, replaceNumbers: bool)
    requires IsWord(w, replaceNumbers) && IsList(ToLower(w))
    ensures ModeOf(w[|w| - 1]) == InWord && !IsSpace(w[|w| - 1])
    ensures ToLower(w) != "use" && ToLower(w) != "null" && ToLower(w) != "null," && ToLower(w) != "by"
    ensures ToLower(w) != "asc" && ToLower(w) != "asc," && ToLower(w) != "asc " && ToLower(w) != "update"
  {
    var l := ToLower(w);
    assert l[|w| - 1] == Lower(w[|w| - 1]);
  }

  lemma ListCopied(v: Scan, l: string, cap: nat)
    requires v.over == 0 && |v.out| + |l| <= cap && IsList(l) && v.sqlState != OnDupeKeyUpdate
    ensures Copied(v, l, cap) ==
            Go(v.(out := v.out + l, prevWord := l, cpFrom := v.cpTo, addSpace := false, s := InValues,
                  sqlState := InValues))
  {
    hide IsList;
  }

  /** A bracket just behind the word. */
  lemma BracketAtOnce(q: string, st: Scan, rd: Reading, qi: nat, w: string, replaceNumbers: bool)
    requires w != "" && Agrees(st, rd, qi) && Stands(q, qi, w) && qi + |w| < |q| && q[qi + |w|] == '('
    requires IsWord(w, replaceNumbers) && IsList(ToLower(w)) && rd.clause != Updating && rd.prev != "call"
    requires |st.out| + |w| <= |q|
    ensures Step(q, AtEnd(st, qi, w), qi + |w|, replaceNumbers) ==
            Continue(Bracketed(st, qi, w, '(', qi + |w| + 1))
  {
    hide Skip, ToLower, IsSpace, Flat, Copied, IsList, IsWord;
    var e, l, u := qi + |w|, ToLower(w), AtEnd(st, qi, w);
    ListWord(w, replaceNumbers);
    BracketNotSpace();
    NothingSkipped(u, e, q[e], |q|);
    AtEndIs(st, rd, qi, w);
    var v := BeginValues(u, e);
    BracketChange(q, u, e, replaceNumbers);
    ListCopied(v, l, |q|);
  }

  lemma BracketNotSpace()
    ensures !IsSpace('(')
  {}

  lemma BracketChange(q: string, u: Scan, e: nat, replaceNumbers: bool)
    requires e < |q| && q[e] == '(' && u.s == InWord && 0 <= u.cpFrom <= e && u.prevWord != "call"
    requires u.sqlState != OnDupeKeyUpdate && IsList(ToLower(q[u.cpFrom..e]))
    ensures Change(q, u, e, replaceNumbers, |q|) == Go(BeginValues(u, e))
  {
    hide IsList, ToLower, OnSpace, OnMark;
  }

  /** White space between the word and the bracket. */
  lemma SpaceAfterWord(q: string, st: Scan, rd: Reading, qi: nat, w: string, replaceNumbers: bool)
    requires w != "" && Agrees(st, rd, qi) && Stands(q, qi, w) && qi + |w| < |q| && IsSpace(q[qi + |w|])
    requires IsWord(w, replaceNumbers) && IsList(ToLower(w)) && rd.clause != Updating && |st.out| + |w| <= |q|
    ensures Step(q, AtEnd(st, qi, w), qi + |w|, replaceNumbers) == Continue(Announced(st, qi, w, q[qi + |w|]))
  {
    hide Skip, ToLower, IsSpace, Flat, Copied, IsList, IsWord, EndWord;
    var e, l, u := qi + |w|, ToLower(w), AtEnd(st, qi, w);
    ListWord(w, replaceNumbers);
    NothingSkipped(u, e, q[e], |q|);
    AtEndIs(st, rd, qi, w);
    SpaceChange(q, u, e, replaceNumbers);
    N.PlainWordEnds(u, e, l, |q|);
    ListCopied(u.(s := InSpace, cpTo := e, addSpace := true), l, |q|);
  }

  lemma {:induction false} SpaceBeforeBracket(q: string, u: Scan, qi: nat, n: nat, replaceNumbers: bool)
    requires qi <= n <= |q| && u.s == InValues && forall i :: qi <= i < n ==> IsSpace(q[i])
    ensures Reach(q, u, qi, n, replaceNumbers) == Continue(u)
    decreases n - qi
  {
    if qi < n {
      hide Change, Copy;
      assert Step(q, u, qi, replaceNumbers) == Continue(u);
      SpaceBeforeBracket(q, u, qi + 1, n, replaceNumbers);
    }
  }

  lemma BracketLater(q: string, u: Scan, p: nat, replaceNumbers: bool)
    requires p < |q| && q[p] == '(' && u.s == InValues && u.parOpen == 0
    ensures Step(q, u, p, replaceNumbers) == Continue(u.(parOpen := 1, firstPar := p))
  {
    hide Change, Copy;
  }

  /** From the word of a list to just behind its bracket. */
  lemma ListAnnounced(q: string, st: Scan, rd: Reading, qi: nat, w: string, between: string, replaceNumbers: bool)
    returns (pr: char)
    requires Agrees(st, rd, qi) && Stands(q, qi, w + between + "(")
    requires IsWord(w, replaceNumbers) && CanBegin(rd, w) && IsList(ToLower(w)) && rd.clause != Updating
    requires IsWhite(between) && (between == "" ==> rd.prev != "call") && |st.out| + |w| <= |q|
    ensures var p := qi + |w| + |between| + 1;
            Reach(q, st, qi, p, replaceNumbers) == Continue(Bracketed(st, qi, w, pr, p))
  {
    hide Reach, Step, Flat, IsWord, IsSpace, IsList, ToLower, Announced, Bracketed, AtEnd;
    var e, p := qi + |w|, qi + |w| + |between| + 1;
    StandsApart(q, qi, w + between, "(");
    StandsApart(q, qi, w, between);
    StandsAt(q, qi + |w| + |between|, "(");
    StandsAt(q, e, between);
    assert q[p - 1] == q[(p - 1) + 0] == '(';
    WordReadWhole(q, st, rd, qi, w, replaceNumbers);
    if between == "" {
      pr := '(';
      BracketAtOnce(q, st, rd, qi, w, replaceNumbers);
      ReachStep(q, st, qi, e, AtEnd(st, qi, w), Bracketed(st, qi, w, '(', p), replaceNumbers);
    } else {
      assert q[e] == q[e + 0] == between[0];
      pr := q[e];
      var u := Announced(st, qi, w, pr);
      SpaceAfterWord(q, st, rd, qi, w, replaceNumbers);
      ReachStep(q, st, qi, e, AtEnd(st, qi, w), u, replaceNumbers);
      AnnouncedIs(st, rd, qi, w, pr);
      assert forall i :: e + 1 <= i < p - 1 ==> IsSpace(q[i]) by {
        forall i | e + 1 <= i < p - 1
          ensures IsSpace(q[i])
        {
          assert q[i] == q[e + (i - e)] == between[i - e];
        }
      }
      SpaceBeforeBracket(q, u, e + 1, p - 1, replaceNumbers);
      ReachJoin(q, st, qi, e + 1, p - 1, replaceNumbers);
      BracketLater(q, u, p - 1, replaceNumbers);
      BracketedIs(st, qi, w, pr, p);
      ReachStep(q, st, qi, p - 1, u, Bracketed(st, qi, w, pr, p), replaceNumbers);
    }
  }

  lemma AnnouncedIs(st: Scan, rd: Reading, qi: nat, w: string, pr: char)
    requires Agrees(st, rd, qi) && w != ""
    ensures var u := Announced(st, qi, w, pr); u.s == InValues && u.parOpen == 0
  {
    hide Flat;
  }

  lemma BracketedIs(st: Scan, qi: nat, w: string, pr: char, p: nat)
    requires w != ""
    ensures Bracketed(st, qi, w, pr, p) == Announced(st, qi, w, pr).(parOpen := 1, firstPar := p - 1)
  {}

  lemma OpenedList(st: Scan, rd: Reading, qi: nat, w: string, pr: char, p: nat)
    requires Agrees(st, rd, qi) && w != "" && qi + |w| < p
    ensures var u := Bracketed(st, qi, w, pr, p);
            && L.OpenList(u, p) && Sound(u, p) && u.over == 0 && u.valueNo == 0 && u.out == st.out + ToLower(w)
  {
    hide Flat, ToLower;
  }

  /** The scan behind a list and the white space after it. */
  function AfterBracket(u: Scan, o: nat, c: char, empty: bool, r: char): Scan {
    var z := L.Ended(u, o, c, empty);
    z.(out := z.out + " ", pr := r)
  }

  lemma SpaceAfterList(q: string, u: Scan, o: nat, c: char, empty: bool, replaceNumbers: bool)
    requires o + 1 < |q| && IsSpace(q[o + 1]) && u.valueNo == 0 && u.over == 0 && u.cpTo <= o
    requires |u.out| + |L.Written(true, empty)| + 1 <= |q|
    ensures Step(q, L.Ended(u, o, c, empty), o + 1, replaceNumbers) ==
            Continue(AfterBracket(u, o, c, empty, q[o + 1]))
  {
    hide OnDigit, OnParen, OnQuote, OnMark;
  }

  lemma ListFlat(rd: Reading, w: string, between: string, contents: string)
    ensures Flat(Take(rd, Listing(w, between, contents)).pieces) ==
            Flat(rd.pieces) + ToLower(w) + L.Written(true, contents == "") + " "
  {
    hide Flat, ToLower;
    var l := ToLower(w);
    FlatAppend(rd.pieces, l + (if contents == "" then "()" else "(?+)"));
    assert Flat(rd.pieces) + (l + L.Written(true, contents == "")) + " " ==
           Flat(rd.pieces) + l + L.Written(true, contents == "") + " ";
  }

  lemma ListAgrees(st: Scan, rd: Reading, qi: nat, w: string, between: string, contents: string, pr: char, p: nat,
                   c: char, r: char)
    requires Agrees(st, rd, qi) && w != "" && qi + |w| < p && IsSpace(r)
    ensures var o := p + |contents|;
            Agrees(AfterBracket(Bracketed(st, qi, w, pr, p), o, c, contents == "", r),
                   Take(rd, Listing(w, between, contents)), o + 2)
  {
    hide Flat, ToLower, IsSpace;
    SpaceNeutral(r);
    ListFlat(rd, w, between, contents);
  }

  lemma ListTaken(q: string, st: Scan, rd: Reading, qi: nat, w: string, between: string, contents: string,
                  replaceNumbers: bool) returns (t: Scan)
    requires Agrees(st, rd, qi) && Fits(rd, Listing(w, between, contents), replaceNumbers)
    requires Stands(q, qi, w + between + "(" + contents + ")")
    requires var e := qi + |w| + |between| + |contents| + 2; e < |q| && IsSpace(q[e])
    requires |Flat(Take(rd, Listing(w, between, contents)).pieces)| <= |q|
    ensures var e := qi + |w| + |between| + |contents| + 2;
            && Reach(q, st, qi, e + 1, replaceNumbers) == Continue(t)
            && Agrees(t, Take(rd, Listing(w, between, contents)), e + 1) && IsSpace(t.pr)
  {
    hide Reach, Step, Flat, IsWord, IsSpace, IsList, Take, Bracketed, Sound, L.IsValueList, L.Ended, ToLower,
      L.OpenList;
    var p := qi + |w| + |between| + 1;
    var o := p + |contents|;
    StandsApart(q, qi, w + between + "(" + contents, ")");
    StandsApart(q, qi, w + between + "(", contents);
    StandsAt(q, o, ")");
    assert q[o] == q[o + 0] == ')';
    ListFlat(rd, w, between, contents);
    var pr := ListAnnounced(q, st, rd, qi, w, between, replaceNumbers);
    var u := Bracketed(st, qi, w, pr, p);
    OpenedList(st, rd, qi, w, pr, p);
    var c := L.ListCrossed(q, u, p, o, replaceNumbers);
    SoundOffset(u, p);
    SpaceAfterList(q, u, o, c, o == p, replaceNumbers);
    t := AfterBracket(u, o, c, o == p, q[o + 1]);
    ListAgrees(st, rd, qi, w, between, contents, pr, p, c, q[o + 1]);
    ReachJoin(q, st, qi, p, o + 1, replaceNumbers);
    ReachStep(q, st, qi, o + 1, L.Ended(u, o, c, o == p), t, replaceNumbers);
  }

  lemma SoundOffset(u: Scan, p: nat)
    requires Sound(u, p)
    ensures u.cpTo <= p
  {}

  // ---------------------------------------------------------------- comments

  lemma SlashStep(q: string, st: Scan, qi: nat, replaceNumbers: bool)
    requires qi < |q| && q[qi] == '/' && st.cpTo <= st.cpFrom
    requires st.s == Unknown || st.s == InSpace || st.s == InWord || st.s == InOp
    ensures Step(q, st, qi, replaceNumbers) == Continue(st.(s := DivOrMLC, pr := '/'))
  {
    hide Skip, Copied;
    NothingSkipped(st, qi, q[qi], |q|);
  }

  lemma StarStep(q: string, st: Scan, qi: nat, replaceNumbers: bool)
    requires qi < |q| && q[qi] == '*' && st.s == DivOrMLC && st.cpTo <= st.cpFrom
    ensures Step(q, st, qi, replaceNumbers) == Continue(st.(s := MlcOrMySQLCode, pr := '*'))
  {
    hide Skip, Copied;
    NothingSkipped(st, qi, q[qi], |q|);
  }

  lemma HashStep(q: string, st: Scan, qi: nat, replaceNumbers: bool)
    requires qi < |q| && q[qi] == '#' && st.cpTo <= st.cpFrom
    requires st.s == Unknown || st.s == InSpace || st.s == InWord || st.s == InOp
    ensures Step(q, st, qi, replaceNumbers) == Continue(st.(s := InOLC, addSpace := false, pr := '#'))
  {
    hide Skip, Copied;
    NothingSkipped(st, qi, q[qi], |q|);
  }

  lemma SpaceAfterDashes(q: string, st: Scan, qi: nat, replaceNumbers: bool)
    requires 2 <= qi < |q| && q[qi] == ' ' && st.s == InDash && st.pr == '-' && st.cpFrom == qi - 2 && st.cpTo <= qi - 2
    ensures Step(q, st, qi, replaceNumbers) ==
            Continue(st.(s := InOLC, pr := ' ', cpTo := if st.cpTo > 2 then qi - 2 else st.cpTo))
  {
    hide Skip, Copied, EndWord;
    NothingSkipped(st, qi, q[qi], |q|);
  }

  /** A comment can be opened at qi. */
  predicate CanOpen(st: Scan, qi: nat, k: C.Kind) {
    && st.cpTo <= st.cpFrom
    && (st.s == Unknown || st.s == InSpace || ((st.s == InWord || st.s == InOp) && !k.Dashes?))
    && (k.Dashes? ==> st.cpFrom == qi && st.pr != '-')
  }

  lemma CommentOpens(q: string, st: Scan, qi: nat, k: C.Kind, replaceNumbers: bool) returns (t: Scan)
    requires CanOpen(st, qi, k) && Stands(q, qi, k.Opener())
    ensures Reach(q, st, qi, qi + |k.Opener()|, replaceNumbers) == Continue(t) && C.InComment(k, t)
    ensures t == st.(s := t.s, pr := t.pr, cpTo := t.cpTo, addSpace := st.addSpace && !k.Hash?) && t.cpTo <= t.cpFrom
  {
    hide Reach, Step, IsSpace;
    StandsAt(q, qi, k.Opener());
    assert q[qi] == q[qi + 0] == k.Opener()[0];
    NowAt(q, st, qi, replaceNumbers);
    match k {
      case Block =>
        assert q[qi + 1] == k.Opener()[1];
        var u := st.(s := DivOrMLC, pr := '/');
        t := u.(s := MlcOrMySQLCode, pr := '*');
        SlashStep(q, st, qi, replaceNumbers);
        StarStep(q, u, qi + 1, replaceNumbers);
        ReachStep(q, st, qi, qi, st, u, replaceNumbers);
        ReachStep(q, st, qi, qi + 1, u, t, replaceNumbers);
      case Hash =>
        t := st.(s := InOLC, addSpace := false, pr := '#');
        HashStep(q, st, qi, replaceNumbers);
        ReachStep(q, st, qi, qi, st, t, replaceNumbers);
      case Dashes =>
        t := DashesOpen(q, st, qi, replaceNumbers);
    }
  }

  lemma DashesOpen(q: string, st: Scan, qi: nat, replaceNumbers: bool) returns (t: Scan)
    requires Stands(q, qi, "-- ") && (st.s == Unknown || st.s == InSpace) && st.cpFrom == qi && st.cpTo <= qi
    requires st.pr != '-'
    ensures Reach(q, st, qi, qi + 3, replaceNumbers) == Continue(t) && t.s == InOLC && t.pr == ' '
    ensures t == st.(s := t.s, pr := t.pr, cpTo := t.cpTo) && t.cpTo <= t.cpFrom
  {
    hide Reach, Step;
    StandsAt(q, qi, "-- ");
    assert q[qi] == q[qi + 0] == "-- "[0] && q[qi + 1] == "-- "[1] && q[qi + 2] == "-- "[2];
    var u := st.(s := OpOrNumber, pr := '-');
    var v := u.(s := InDash);
    t := v.(s := InOLC, pr := ' ', cpTo := if v.cpTo > 2 then qi else v.cpTo);
    NowAt(q, st, qi, replaceNumbers);
    DashStep(q, st, qi, replaceNumbers);
    DashStep(q, u, qi + 1, replaceNumbers);
    SpaceAfterDashes(q, v, qi + 2, replaceNumbers);
    ReachStep(q, st, qi, qi, st, u, replaceNumbers);
    ReachStep(q, st, qi, qi + 1, u, v, replaceNumbers);
    ReachStep(q, st, qi, qi + 2, v, t, replaceNumbers);
  }

  /** From the opener of a comment to just behind it. */
  lemma CommentPassed(q: string, st: Scan, qi: nat, k: C.Kind, body: string, replaceNumbers: bool) returns (t: Scan)
    requires CanOpen(st, qi, k) && k.Holds(body) && Stands(q, qi, k.Opener() + body + k.Closer())
    ensures Reach(q, st, qi, qi + |k.Opener() + body + k.Closer()|, replaceNumbers) == Continue(t)
    ensures t == st.(s := Unknown, pr := t.pr, cpTo := t.cpTo, addSpace := st.addSpace && !k.Hash?)
    ensures t.cpTo <= t.cpFrom && Neutral(t.pr)
  {
    hide Reach, Stands, C.Kind.Opener, C.Kind.Closer, C.Kind.Holds, CanOpen;
    var p, e := qi + |k.Opener()|, qi + |k.Opener() + body + k.Closer()|;
    assert k.Opener() + body + k.Closer() == k.Opener() + (body + k.Closer());
    StandsApart(q, qi, k.Opener(), body + k.Closer());
    StandsWithin(q, p, body + k.Closer());
    var u := CommentOpens(q, st, qi, k, replaceNumbers);
    C.CommentCrossed(q, u, p, k, body, replaceNumbers);
    t := u.(s := Unknown);
    ReachJoin(q, st, qi, p, e, replaceNumbers);
  }

  lemma CommentAgrees(st: Scan, rd: Reading, qi: nat, k: C.Kind, t: Scan, e: nat)
    requires Agrees(st, rd, qi) && rd.last != AfterList && qi <= e && t.cpTo <= t.cpFrom && Neutral(t.pr)
    requires t == st.(s := Unknown, pr := t.pr, cpTo := t.cpTo, addSpace := st.addSpace && !k.Hash?)
    ensures Agrees(t, TakeComment(rd, k), e)
  {
    hide Flat;
  }

  /** A comment is read: nothing is written. */
  lemma CommentTaken(q: string, st: Scan, rd: Reading, qi: nat, k: C.Kind, body: string, replaceNumbers: bool)
    returns (t: Scan)
    requires Agrees(st, rd, qi) && Fits(rd, Comment(k, body), replaceNumbers)
    requires Stands(q, qi, k.Opener() + body + k.Closer())
    ensures var e := qi + |k.Opener() + body + k.Closer()|;
            && Reach(q, st, qi, e, replaceNumbers) == Continue(t)
            && Agrees(t, TakeComment(rd, k), e) && t.s == Unknown
  {
    hide Reach, Stands, C.Kind.Opener, C.Kind.Closer, C.Kind.Holds;
    assert CanOpen(st, qi, k) by {
      hide Flat;
    }
    hide Agrees, CanOpen;
    t := CommentPassed(q, st, qi, k, body, replaceNumbers);
    CommentAgrees(st, rd, qi, k, t, qi + |k.Opener() + body + k.Closer()|);
  }

  lemma TouchingAgrees(st: Scan, rd: Reading, qi: nat, w: string, k: C.Kind, t: Scan, e: nat)
    requires Agrees(st, rd, qi) && w != "" && qi <= e && t.cpTo <= t.cpFrom && Neutral(t.pr)
    requires t == AtEnd(st, qi, w).(s := Unknown, pr := t.pr, cpTo := t.cpTo, addSpace := st.addSpace && !k.Hash?)
    ensures Agrees(t, TakeComment(rd, k), e)
  {
    hide Flat;
  }

  /** A word and the comment that touches it are read: nothing is written, and the word is lost. */
  lemma TouchingTaken(q: string, st: Scan, rd: Reading, qi: nat, w: string, k: C.Kind, body: string,
                      replaceNumbers: bool) returns (t: Scan)
    requires Agrees(st, rd, qi) && Fits(rd, Touching(w, k, body), replaceNumbers)
    requires Stands(q, qi, w + (k.Opener() + body + k.Closer()))
    ensures var e := qi + |w + (k.Opener() + body + k.Closer())|;
            && Reach(q, st, qi, e, replaceNumbers) == Continue(t)
            && Agrees(t, TakeComment(rd, k), e) && t.s == Unknown
  {
    hide Reach, Stands, C.Kind.Opener, C.Kind.Closer, C.Kind.Holds, IsWord, Flat;
    var b := qi + |w|;
    StandsApart(q, qi, w, k.Opener() + body + k.Closer());
    WordReadWhole(q, st, rd, qi, w, replaceNumbers);
    var u := AtEnd(st, qi, w);
    assert CanOpen(u, b, k);
    hide Agrees, CanOpen, AtEnd;
    t := CommentPassed(q, u, b, k, body, replaceNumbers);
    AtEndSpace(st, qi, w);
    TouchingAgrees(st, rd, qi, w, k, t, b + |k.Opener() + body + k.Closer()|);
    ReachJoin(q, st, qi, b, b + |k.Opener() + body + k.Closer()|, replaceNumbers);
  }

  lemma AtEndSpace(st: Scan, qi: nat, w: string)
    requires w != ""
    ensures AtEnd(st, qi, w).addSpace == st.addSpace
  {}

  lemma FlatEnds(pieces: seq<string>)
    ensures Flat(pieces) != "" ==> Flat(pieces)[|Flat(pieces)| - 1] == ' '
  {}

  /** The first white space behind a comment changes nothing. */
  lemma SpaceAfterComment(q: string, t: Scan, rd: Reading, e: nat, replaceNumbers: bool)
    requires e < |q| && IsSpace(q[e]) && Agrees(t, rd, e) && t.s == Unknown && !IsSpace(t.pr) && rd.last == Pending
    ensures Step(q, t, e, replaceNumbers) == Continue(t.(pr := q[e])) && Agrees(t.(pr := q[e]), rd, e + 1)
  {
    hide Skip, Copied, EndWord, Flat, OnDigit;
    NothingSkipped(t, e, q[e], |q|);
    FlatEnds(rd.pieces);
  }
}
