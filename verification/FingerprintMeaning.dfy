/**
  The fingerprint of whole queries. For every query that is made of tokens with white space between them, the
  scan returns the reference reading of the tokens, if and only if that is no longer than the query: the
  output array is as long as the query, and a list of a single character is longer in the fingerprint.
 */
module FingerprintMeaning {
  import opened Fingerprint
  import opened FingerprintLiterals
  import opened FingerprintReach
  import opened FingerprintTokens
  import N = FingerprintNumbers
  import L = FingerprintLists
  import C = FingerprintComments

  // ---------------------------------------------------------------- whole queries

  lemma TokenTaken(q: string, st: Scan, rd: Reading, qi: nat, token: Token, replaceNumbers: bool) returns (t: Scan)
    requires Agrees(st, rd, qi) && Fits(rd, token, replaceNumbers) && Stands(q, qi, token.Spelling())
    requires var e := qi + |token.Spelling()|; e < |q| && IsSpace(q[e])
    requires |Flat(Take(rd, token).pieces)| <= |q| && !token.EndsInComment()
    ensures var e := qi + |token.Spelling()|;
            && Reach(q, st, qi, e + 1, replaceNumbers) == Continue(t)
            && Agrees(t, Take(rd, token), e + 1) && IsSpace(t.pr)
  {
    hide Reach, Flat, IsSpace, Agrees, TakeWord, Fits;
    match token {
      case Word(w) => t := WordTaken(q, st, rd, qi, w, replaceNumbers);
      case Single(v) => t := SingleTaken(q, st, rd, qi, v, replaceNumbers);
      case Pair(w, v) => t := PairTaken(q, st, rd, qi, w, v, replaceNumbers);
      case Listing(w, between, contents) =>
        t := ListTaken(q, st, rd, qi, w, between, contents, replaceNumbers);
    }
  }

  lemma CommentTokenTaken(q: string, st: Scan, rd: Reading, qi: nat, token: Token, replaceNumbers: bool)
    returns (t: Scan)
    requires Agrees(st, rd, qi) && Fits(rd, token, replaceNumbers) && token.EndsInComment()
    requires Stands(q, qi, token.Spelling())
    ensures var e := qi + |token.Spelling()|;
            && Reach(q, st, qi, e, replaceNumbers) == Continue(t) && Agrees(t, Take(rd, token), e) && t.s == Unknown
  {
    hide Reach, Agrees, Fits;
    match token {
      case Comment(k, body) => t := CommentTaken(q, st, rd, qi, k, body, replaceNumbers);
      case Touching(w, k, body) => t := TouchingTaken(q, st, rd, qi, w, k, body, replaceNumbers);
    }
  }

  /** A comment, or a word with one, and the white space behind it, if any. */
  lemma CommentItemTaken(q: string, st: Scan, rd: Reading, qi: nat, item: Item, replaceNumbers: bool) returns (t: Scan)
    requires Agrees(st, rd, qi) && Fits(rd, item.token, replaceNumbers) && item.token.EndsInComment()
    requires Stands(q, qi, item.token.Spelling() + item.space) && IsWhite(item.space)
    ensures var e := qi + |item.token.Spelling() + item.space|;
            && Reach(q, st, qi, e, replaceNumbers) == Continue(t) && Agrees(t, Take(rd, item.token), e)
  {
    hide Reach, Flat, IsSpace, Agrees, Fits, Step, Token.Spelling;
    var b, e := qi + |item.token.Spelling()|, qi + |item.token.Spelling() + item.space|;
    StandsApart(q, qi, item.token.Spelling(), item.space);
    WhiteAt(q, b, item.space);
    t := CommentTokenTaken(q, st, rd, qi, item.token, replaceNumbers);
    if item.space != "" {
      var u, from := t, b;
      if !IsSpace(t.pr) {
        SpaceAfterComment(q, t, Take(rd, item.token), b, replaceNumbers);
        u, from := t.(pr := q[b]), b + 1;
        ReachStep(q, st, qi, b, t, u, replaceNumbers);
      }
      t := SpaceCollapses(q, u, Take(rd, item.token), from, e, replaceNumbers);
      ReachJoin(q, st, qi, from, e, replaceNumbers);
    }
  }

  lemma WhiteAt(q: string, b: nat, space: string)
    requires Stands(q, b, space) && IsWhite(space)
    ensures forall i :: b <= i < b + |space| ==> IsSpace(q[i])
  {
    hide IsSpace;
    StandsAt(q, b, space);
    forall i | b <= i < b + |space|
      ensures IsSpace(q[i])
    {
      assert q[i] == q[b + (i - b)] == space[i - b];
    }
  }

  lemma ItemTaken(q: string, st: Scan, rd: Reading, qi: nat, item: Item, replaceNumbers: bool) returns (t: Scan)
    requires Agrees(st, rd, qi) && Fits(rd, item.token, replaceNumbers) && item.Ok()
    requires Stands(q, qi, item.token.Spelling() + item.space) && |Flat(Take(rd, item.token).pieces)| <= |q|
    ensures var e := qi + |item.token.Spelling() + item.space|;
            Reach(q, st, qi, e, replaceNumbers) == Continue(t) && Agrees(t, Take(rd, item.token), e)
  {
    hide Reach, Flat, IsSpace, Agrees, Take, Fits, IsWhite;
    if item.token.EndsInComment() {
      t := CommentItemTaken(q, st, rd, qi, item, replaceNumbers);
    } else {
      var b, e := qi + |item.token.Spelling()|, qi + |item.token.Spelling() + item.space|;
      StandsApart(q, qi, item.token.Spelling(), item.space);
      WhiteAt(q, b, item.space);
      var u := TokenTaken(q, st, rd, qi, item.token, replaceNumbers);
      t := SpaceCollapses(q, u, Take(rd, item.token), b + 1, e, replaceNumbers);
      ReachJoin(q, st, qi, b + 1, e, replaceNumbers);
    }
  }

  lemma TakeGrows(rd: Reading, token: Token)
    ensures |Flat(rd.pieces)| <= |Flat(Take(rd, token).pieces)|
  {
    hide Flat, ToLower, IsNull;
    var p := Take(rd, token).pieces;
    if |p| == |rd.pieces| + 1 {
      FlatAppend(rd.pieces, p[|p| - 1]);
      assert p == rd.pieces + [p[|p| - 1]];
    } else if p != rd.pieces {
      FlatComma(rd.pieces);
    }
  }

  lemma {:induction false} ReadGrows(rd: Reading, items: seq<Item>)
    ensures |Flat(rd.pieces)| <= |Flat(ReadOn(rd, items).pieces)|
    decreases |items|
  {
    hide Flat, Take;
    if items != [] {
      TakeGrows(rd, items[0].token);
      ReadGrows(Take(rd, items[0].token), items[1..]);
    }
  }

  /** The scan reads the items and stands before what follows them, in agreement with the reading. */
  lemma {:induction false} ItemsTaken(q: string, st: Scan, rd: Reading, qi: nat, items: seq<Item>, replaceNumbers: bool)
    returns (t: Scan)
    requires Agrees(st, rd, qi) && Fitting(rd, items, replaceNumbers) && Stands(q, qi, Spelled(items))
    requires |Flat(ReadOn(rd, items).pieces)| <= |q|
    ensures var e := qi + |Spelled(items)|;
            Reach(q, st, qi, e, replaceNumbers) == Continue(t) && Agrees(t, ReadOn(rd, items), e)
    decreases |items|
  {
    hide Reach, Flat, Agrees, Take, Fits, Stands, Item.Ok;
    if items == [] {
      t := st;
      StandsWithin(q, qi, "");
      NowAt(q, st, qi, replaceNumbers);
    } else {
      var first := items[0].token.Spelling() + items[0].space;
      StandsApart(q, qi, first, Spelled(items[1..]));
      ReadGrows(Take(rd, items[0].token), items[1..]);
      StandsWithin(q, qi, first);
      StandsWithin(q, qi + |first|, Spelled(items[1..]));
      var u := ItemTaken(q, st, rd, qi, items[0], replaceNumbers);
      t := ItemsTaken(q, u, Take(rd, items[0].token), qi + |first|, items[1..], replaceNumbers);
      ReachJoin(q, st, qi, qi + |first|, qi + |Spelled(items)|, replaceNumbers);
    }
  }

  // ---------------------------------------------------------------- the text at the end

  predicate GoodPiece(p: string) {
    p != "" && !IsSpace(p[|p| - 1]) && '\0' !in p
  }

  predicate Good(pieces: seq<string>) {
    forall i :: 0 <= i < |pieces| ==> GoodPiece(pieces[i])
  }

  lemma LowerKeeps(r: char)
    ensures (Lower(r) == '\0' <==> r == '\0') && (IsSpace(Lower(r)) <==> IsSpace(r))
  {}

  lemma WordGood(w: string, replaceNumbers: bool)
    requires IsWord(w, replaceNumbers)
    ensures GoodPiece(ToLower(w))
  {
    hide Follows, Plain, IsOperator, IsSpace, Lower;
    var l := ToLower(w);
    LastOfWord(w, replaceNumbers);
    LowerKeeps(w[|w| - 1]);
    forall i | 0 <= i < |l|
      ensures l[i] != '\0'
    {
      LowerKeeps(w[i]);
      NoNulInWord(w, i, replaceNumbers);
    }
  }

  lemma NoNulInWord(w: string, i: nat, replaceNumbers: bool)
    requires IsWord(w, replaceNumbers) && i < |w|
    ensures w[i] != '\0'
  {
    assert i > 0 ==> Follows(w[i - 1], w[i], replaceNumbers);
  }

  lemma TakeGood(rd: Reading, token: Token, replaceNumbers: bool)
    requires Good(rd.pieces) && Fits(rd, token, replaceNumbers)
    ensures Good(Take(rd, token).pieces)
  {
    hide IsWord, ToLower, L.IsValueList, IsWhite, IsNull, Value.Ok, IsOperator;
    match token {
      case Word(w) => WordGood(w, replaceNumbers);
      case Single(_) =>
      case Pair(w, _) => WordGood(w, replaceNumbers);
      case Listing(w, _, _) => WordGood(w, replaceNumbers);
      case Comment(_, _) =>
      case Touching(_, _, _) =>
    }
  }

  lemma {:induction false} ReadGood(rd: Reading, items: seq<Item>, replaceNumbers: bool)
    requires Good(rd.pieces) && Fitting(rd, items, replaceNumbers)
    ensures Good(ReadOn(rd, items).pieces)
    decreases |items|
  {
    hide Good, Fits, Take, Item.Ok;
    if items != [] {
      TakeGood(rd, items[0].token, replaceNumbers);
      ReadGood(Take(rd, items[0].token), items[1..], replaceNumbers);
    }
  }

  lemma {:induction false} FlatIsJoined(pieces: seq<string>)
    requires pieces != []
    ensures Flat(pieces) == Joined(pieces) + " "
    decreases |pieces|
  {
    if |pieces| > 1 {
      FlatIsJoined(pieces[..|pieces| - 1]);
    } else {
      assert pieces[..0] == [] && Flat(pieces[..0]) == "";
    }
  }

  lemma {:induction false} JoinedGood(pieces: seq<string>)
    requires pieces != [] && Good(pieces)
    ensures GoodPiece(Joined(pieces))
    decreases |pieces|
  {
    hide IsSpace;
    assert GoodPiece(pieces[|pieces| - 1]);
    if |pieces| > 1 {
      JoinedGood(pieces[..|pieces| - 1]);
    }
  }

  lemma Finished(t: Scan, rd: Reading, qi: nat)
    requires Agrees(t, rd, qi) && Good(rd.pieces)
    ensures Finish(t) == Text(Joined(rd.pieces), 0)
  {
    hide IsSpace;
    var j := Joined(rd.pieces);
    if rd.pieces == [] {
      assert Trim("") == "";
    } else {
      hide Joined;
      FlatIsJoined(rd.pieces);
      JoinedGood(rd.pieces);
      assert IsSpace(' ') by {
        SpaceIsSpace();
      }
      assert (j + " ")[..|j|] == j;
      assert Trim(j) == j;
      assert Trim(j + " ") == Trim((j + " ")[..|j|]);
      N.NoNul(j);
    }
  }

  // ---------------------------------------------------------------- the output array is not overrun

  lemma SkipCap(st: Scan, qi: nat, r: char, cap: nat)
    requires |st.out| <= cap
    ensures var n := Skip(st, qi, r, cap); n.Go? || n.Continue? ==> |n.st.out| <= cap
  {
    hide IsSpace, InNumeral, EndsNumeral, IsDigit, SkipValues;
    if st.s == InValues {
      ValuesCap(st, qi, r, cap);
    } else if st.s == InQuote {
    } else if st.s == InNumber {
    }
  }

  lemma ValuesCap(st: Scan, qi: nat, r: char, cap: nat)
    requires |st.out| <= cap
    ensures var n := SkipValues(st, qi, r, cap); n.Go? || n.Continue? ==> |n.st.out| <= cap
  {
    hide IsSpace, Brackets;
    BracketsCap(st, qi, r);
  }

  lemma BracketsCap(st: Scan, qi: nat, r: char)
    ensures Brackets(st, qi, r).out == st.out
  {}

  lemma ChangeCap(q: string, st: Scan, qi: nat, replaceNumbers: bool, cap: nat)
    requires qi < |q| && |st.out| <= cap
    ensures var n := Change(q, st, qi, replaceNumbers, cap); n.Go? || n.Continue? ==> |n.st.out| <= cap
  {
    hide IsSpace, IsDigit, ToLower, IsList, EndWord, OnMark, OnParen;
    MarkCap(st, qi, q[qi]);
    ParenCap(q, st, qi);
    if 0 <= st.cpFrom <= qi {
      EndWordCap(st, qi, ToLower(q[st.cpFrom..qi]), cap);
    }
  }

  lemma MarkCap(st: Scan, qi: nat, r: char)
    ensures OnMark(st, qi, r).out == st.out
  {}

  lemma ParenCap(q: string, st: Scan, qi: nat)
    requires qi < |q|
    ensures var n := OnParen(q, st, qi); n.Go? || n.Continue? ==> n.st.out == st.out
  {
    hide IsList, ToLower;
  }

  lemma EndWordCap(st: Scan, qi: nat, word: string, cap: nat)
    requires |st.out| <= cap
    ensures var n := EndWord(st, qi, word, cap); n.Go? || n.Continue? ==> |n.st.out| <= cap
  {}

  lemma CopyCap(q: string, st: Scan, cap: nat)
    requires |st.out| <= cap
    ensures var n := Copy(q, st, cap); n.Go? || n.Continue? ==> |n.st.out| <= cap
  {
    hide IsList, ToLower;
  }

  /** No round writes beyond the array. */
  lemma StepCap(q: string, st: Scan, qi: nat, replaceNumbers: bool)
    requires qi < |q| && |st.out| <= |q|
    ensures var n := Step(q, st, qi, replaceNumbers); n.Go? || n.Continue? ==> |n.st.out| <= |q|
  {
    hide Skip, Change, Copy;
    SkipCap(st, qi, q[qi], |q|);
    var a := Skip(st, qi, q[qi], |q|);
    if a.Go? {
      ChangeCap(q, a.st, qi, replaceNumbers, |q|);
      var b := Change(q, a.st, qi, replaceNumbers, |q|);
      if b.Go? {
        CopyCap(q, b.st, |q|);
      }
    }
  }

  lemma {:induction false} ReachCap(q: string, st: Scan, qi: nat, n: nat, replaceNumbers: bool)
    requires qi <= n <= |q| && |st.out| <= |q|
    ensures var r := Reach(q, st, qi, n, replaceNumbers); r.Go? || r.Continue? ==> |r.st.out| <= |q|
    decreases n - qi
  {
    hide Step;
    if qi < n {
      StepCap(q, st, qi, replaceNumbers);
      var m := Step(q, st, qi, replaceNumbers);
      if m.Continue? {
        ReachCap(q, m.st, qi + 1, n, replaceNumbers);
      }
    }
  }

  // ---------------------------------------------------------------- the theorem

  /** The fingerprint of the items, as the reference reading has it. */
  function Reference(items: seq<Item>): string {
    Joined(ReadOn(NOTHING, items).pieces)
  }

  /**
    The scan of a query that is made of fitting items returns the reference reading of the items if that is
    no longer than the query, and otherwise loses output or fails.
   */
  lemma Meaning(query: string, items: seq<Item>, replaceNumbers: bool)
    requires Fitting(NOTHING, items, replaceNumbers) && query + " " == Spelled(items)
    ensures |Reference(items)| <= |query| ==> FingerprintOf(query, replaceNumbers) == Text(Reference(items), 0)
    ensures Complete(FingerprintOf(query, replaceNumbers)) <==> |Reference(items)| <= |query|
  {
    hide Reach, Run, Flat, Agrees, Fitting, Step, Joined, Finish;
    var rd := ReadOn(NOTHING, items);
    LengthOfFlat(rd.pieces);
    if |Reference(items)| <= |query| {
      MeaningIfRoom(query, items, replaceNumbers);
    } else if Complete(FingerprintOf(query, replaceNumbers)) {
      NotLonger(query, items, replaceNumbers);
    }
  }

  lemma LengthOfFlat(pieces: seq<string>)
    ensures |Flat(pieces)| == if pieces == [] then 0 else |Joined(pieces)| + 1
    ensures pieces == [] ==> Joined(pieces) == ""
  {
    if pieces != [] {
      FlatIsJoined(pieces);
    }
  }

  lemma MeaningIfRoom(query: string, items: seq<Item>, replaceNumbers: bool)
    requires Fitting(NOTHING, items, replaceNumbers) && query + " " == Spelled(items)
    requires |Flat(ReadOn(NOTHING, items).pieces)| <= |query| + 1
    ensures FingerprintOf(query, replaceNumbers) == Text(Reference(items), 0)
  {
    hide Reach, Run, Flat, Agrees, Fitting, Step, Joined, Finish;
    var q := query + " ";
    assert q[0..0 + |q|] == q;
    AtStart();
    var t := ItemsTaken(q, START, NOTHING, 0, items, replaceNumbers);
    StartSound();
    RunReach(q, START, 0, |q|, replaceNumbers);
    AtTheEnd(q, t, replaceNumbers);
    ReadGood(NOTHING, items, replaceNumbers);
    Finished(t, ReadOn(NOTHING, items), |q|);
  }

  /** A complete scan has had room for the whole reading. */
  lemma NotLonger(query: string, items: seq<Item>, replaceNumbers: bool)
    requires Fitting(NOTHING, items, replaceNumbers) && query + " " == Spelled(items)
    requires Complete(FingerprintOf(query, replaceNumbers))
    ensures |Flat(ReadOn(NOTHING, items).pieces)| <= |query| + 1
  {
    hide Reach, Run, Flat, Fitting, Step, Joined, Finish;
    var rd := ReadOn(NOTHING, items);
    var q := query + " ";
    var longer := q + L.Spaces(|Flat(rd.pieces)|);
    assert longer[0..0 + |q|] == q;
    AtStart();
    var t := ItemsTaken(longer, START, NOTHING, 0, items, replaceNumbers);
    StartSound();
    assert q[..|q|] == q == longer[..|q|];
    PrefixAlike(q, longer, START, 0, |q|, replaceNumbers);
    ReachCap(q, START, 0, |q|, replaceNumbers);
  }

  // ---------------------------------------------------------------- room

  /** Every list has two characters from its word to its last bracket, not counting the brackets, or is empty. */
  predicate Roomy(token: Token) {
    token.Listing? ==> token.contents == "" || |token.between| + |token.contents| >= 2
  }

  lemma TakeRoom(rd: Reading, item: Item, n: nat, replaceNumbers: bool)
    requires Fits(rd, item.token, replaceNumbers) && item.Ok() && Roomy(item.token)
    requires |Flat(rd.pieces)| + (if rd.owed then 3 else 0) <= n
    requires rd.clause == Ordering ==> rd.pieces != []
    ensures var next := Take(rd, item.token);
            && |Flat(next.pieces)| + (if next.owed then 3 else 0) <= n + |item.token.Spelling()| + |item.space|
            && (next.clause == Ordering ==> next.pieces != [])
  {
    hide Flat, ToLower, IsWord, Value.Ok, L.IsValueList, IsWhite, IsOperator, Plain;
    match item.token {
      case Word(w) => WordRoom(rd, ToLower(w));
      case Single(v) =>
        FlatAppend(rd.pieces, "?");
        ValueStarts(v);
      case Pair(w, v) =>
        PairFlat(rd, w, v);
        ValueStarts(v);
      case Listing(w, between, contents) => ListFlat(rd, w, between, contents);
      case Comment(_, _) =>
      case Touching(_, _, _) =>
    }
  }

  lemma WordRoom(rd: Reading, l: string)
    requires rd.clause == Ordering ==> rd.pieces != []
    ensures var next := TakeWord(rd, l);
            && |Flat(next.pieces)| + (if next.owed then 3 else 0) <= |Flat(rd.pieces)| + |l| + 1
            && (next.clause == Ordering ==> next.pieces != [])
  {
    hide Flat;
    FlatAppend(rd.pieces, l);
    FlatAppend(rd.pieces, "?");
    FlatAppend(rd.pieces, "?,");
    if rd.pieces != [] {
      FlatComma(rd.pieces);
    }
  }

  lemma {:induction false} RoomKept(rd: Reading, items: seq<Item>, n: nat, replaceNumbers: bool)
    requires Fitting(rd, items, replaceNumbers) && (forall i :: 0 <= i < |items| ==> Roomy(items[i].token))
    requires |Flat(rd.pieces)| + (if rd.owed then 3 else 0) <= n && (rd.clause == Ordering ==> rd.pieces != [])
    ensures |Flat(ReadOn(rd, items).pieces)| <= n + |Spelled(items)|
    decreases |items|
  {
    hide Flat, Fits, Item.Ok, Take, Roomy, Token.Spelling;
    if items != [] {
      TakeRoom(rd, items[0], n, replaceNumbers);
      RoomKept(Take(rd, items[0].token), items[1..], n + |items[0].token.Spelling()| + |items[0].space|, replaceNumbers);
    }
  }

  /** Without lists of a single character just behind their word, there is always room for the fingerprint. */
  lemma MeaningOfRoomy(query: string, items: seq<Item>, replaceNumbers: bool)
    requires Fitting(NOTHING, items, replaceNumbers) && query + " " == Spelled(items)
    requires forall i :: 0 <= i < |items| ==> Roomy(items[i].token)
    ensures FingerprintOf(query, replaceNumbers) == Text(Reference(items), 0)
  {
    hide Flat, Fitting, ReadOn, Roomy, Run;
    assert |Flat(NOTHING.pieces)| == 0 by {
      NothingIsFlat();
    }
    RoomKept(NOTHING, items, 0, replaceNumbers);
    MeaningIfRoom(query, items, replaceNumbers);
  }

  lemma NothingIsFlat()
    ensures Flat([]) == ""
  {}

  const ONE := Listing("in", "", "1")

  lemma OneFits(replaceNumbers: bool)
    ensures Fits(NOTHING, ONE, replaceNumbers) && Take(NOTHING, ONE).pieces == ["in(?+)"]
  {
    assert ToLower("in") == "in";
    assert L.IsValueList("1") by {
      assert "1"[1..] == "";
    }
    assert "in" + "(?+)" == "in(?+)" && [] + ["in(?+)"] == ["in(?+)"];
  }

  /** The example: the output array of such a query is too short by one, and the fingerprint is lost. */
  lemma ListOfOneIsLost(replaceNumbers: bool)
    ensures !Complete(FingerprintOf("in(1)", replaceNumbers))
  {
    hide FingerprintOf, Fits, Take;
    var item := Item(ONE, " ");
    OneFits(replaceNumbers);
    assert [item][1..] == [];
    assert Spelled([item][1..]) == "" && ReadOn(Take(NOTHING, ONE), [item][1..]) == Take(NOTHING, ONE);
    assert Spelled([item]) == "in(1) " == "in(1)" + " ";
    assert Reference([item]) == "in(?+)";
    Meaning("in(1)", [item], replaceNumbers);
  }

  const TOUCHED := Touching("a", C.Block, "b")

  lemma TouchedFits(replaceNumbers: bool)
    ensures Fits(NOTHING, TOUCHED, replaceNumbers) && TOUCHED.Spelling() == "a/*b*/"
  {
    assert "a" + ("/*" + "b" + "*/") == "a/*b*/";
  }

  lemma NextFits(replaceNumbers: bool)
    ensures var rd := Take(NOTHING, TOUCHED);
            Fits(rd, Word("c"), replaceNumbers) && Take(rd, Word("c")).pieces == ["c"]
  {
    assert ToLower("c") == "c" && [] + ["c"] == ["c"];
  }

  /** The example: the word before the comment is lost with it. */
  lemma TouchedIsLost(replaceNumbers: bool)
    ensures FingerprintOf("a/*b*/c", replaceNumbers) == Text("c", 0)
  {
    hide FingerprintOf, Fits, Take;
    TouchedFits(replaceNumbers);
    NextFits(replaceNumbers);
    var first, next := Item(TOUCHED, ""), Item(Word("c"), " ");
    var items := [first, next];
    var rd := Take(NOTHING, TOUCHED);
    assert items[1..] == [next] && [next][1..] == [];
    assert Spelled([next][1..]) == "" && Spelled([next]) == "c ";
    assert Spelled(items) == "a/*b*/" + "" + "c " == "a/*b*/c" + " ";
    assert Fitting(rd, [next], replaceNumbers) && Fitting(NOTHING, items, replaceNumbers);
    assert ReadOn(rd, [next]) == ReadOn(Take(rd, next.token), []) == Take(rd, next.token);
    assert Reference(items) == "c";
    Meaning("a/*b*/c", items, replaceNumbers);
  }

  // ---------------------------------------------------------------- queries of one shape

  /** The tokens differ at most in the case of letters, in values, in what a list holds and in a comment. */
  predicate SameShape(a: Token, b: Token) {
    match (a, b)
    case (Word(w), Word(x)) => ToLower(w) == ToLower(x)
    case (Single(_), Single(_)) => true
    case (Pair(w, _), Pair(x, _)) => ToLower(w) == ToLower(x)
    case (Listing(w, _, c), Listing(x, _, d)) => ToLower(w) == ToLower(x) && (c == "" <==> d == "")
    case (Comment(k, _), Comment(m, _)) => k == m
    case (Touching(_, k, _), Touching(_, m, _)) => k == m
    case _ => false
  }

  predicate SameShapes(a: seq<Item>, b: seq<Item>) {
    |a| == |b| && forall i :: 0 <= i < |a| ==> SameShape(a[i].token, b[i].token)
  }

  lemma {:induction false} ShapeIsRead(rd: Reading, a: seq<Item>, b: seq<Item>)
    requires SameShapes(a, b)
    ensures ReadOn(rd, a) == ReadOn(rd, b)
    decreases |a|
  {
    hide TakeWord, ToLower;
    if a != [] {
      assert SameShape(a[0].token, b[0].token);
      ShapeIsRead(Take(rd, a[0].token), a[1..], b[1..]);
    }
  }

  /**
    Queries of one shape have the same fingerprint, whatever their white space, letter case, values, contents
    of lists and comments are, if and only if there is room for it in both; and a longer query has the room.
   */
  lemma Deduplicated(query1: string, items1: seq<Item>, query2: string, items2: seq<Item>, replaceNumbers: bool)
    requires Fitting(NOTHING, items1, replaceNumbers) && query1 + " " == Spelled(items1)
    requires Fitting(NOTHING, items2, replaceNumbers) && query2 + " " == Spelled(items2)
    requires SameShapes(items1, items2) && Complete(FingerprintOf(query1, replaceNumbers))
    ensures FingerprintOf(query1, replaceNumbers) == FingerprintOf(query2, replaceNumbers)
            <==> Complete(FingerprintOf(query2, replaceNumbers))
    ensures |query1| <= |query2| ==> Complete(FingerprintOf(query2, replaceNumbers))
  {
    hide FingerprintOf, Fitting, Spelled, SameShapes;
    ShapeIsRead(NOTHING, items1, items2);
    Meaning(query1, items1, replaceNumbers);
    Meaning(query2, items2, replaceNumbers);
  }

  // ---------------------------------------------------------------- USE and CALL

  /** USE as the first word ends the scan. */
  lemma UseStops(q: string, u: Scan, qi: nat, w: string, replaceNumbers: bool)
    requires Stands(q, qi, w) && qi + |w| < |q| && IsSpace(q[qi + |w|]) && u.s == InWord && !IsSpace(u.pr)
    requires u.cpFrom == qi && u.prevWord == "" && u.over == 0 && ToLower(w) == "use"
    ensures Step(q, u, qi + |w|, replaceNumbers) == Stop("use ?", 0)
  {
    hide Skip, ToLower, IsSpace;
    NothingSkipped(u, qi + |w|, q[qi + |w|], |q|);
    SpaceChange(q, u, qi + |w|, replaceNumbers);
  }

  /**
    A query with USE as its first word, behind any items that are not words, has the fingerprint "use ?",
    whatever comes after it.
   */
  lemma UseDatabase(query: string, items: seq<Item>, w: string, space: char, after: string, replaceNumbers: bool)
    requires Fitting(NOTHING, items, replaceNumbers) && query + " " == Spelled(items) + w + [space] + after
    requires var rd := ReadOn(NOTHING, items);
             rd.prev == "" && rd.last == Closed && |Flat(rd.pieces)| <= |query| + 1
    requires w != "" && IsWord(w, replaceNumbers) && ToLower(w) == "use" && IsSpace(space)
    ensures FingerprintOf(query, replaceNumbers) == Text("use ?", 0)
  {
    hide Reach, Run, Flat, Fitting, Step, IsWord, IsSpace, ToLower, Agrees, AtEnd, ReadOn, Spelled, Plain;
    var rd := ReadOn(NOTHING, items);
    var q, b := query + " ", |Spelled(items)|;
    assert q[0..0 + b] == Spelled(items);
    assert q[b..b + |w|] == w && q[b + |w|] == space;
    AtStart();
    var t := ItemsTaken(q, START, NOTHING, 0, items, replaceNumbers);
    WordReadWhole(q, t, rd, b, w, replaceNumbers);
    var u := AtEnd(t, b, w);
    AtEndKnown(t, rd, b, w);
    UseIsWord(w, replaceNumbers);
    UseStops(q, u, b, w, replaceNumbers);
    ReachJoin(q, START, 0, b, b + |w|, replaceNumbers);
    StopsThere(q, u, b + |w|, replaceNumbers);
  }

  lemma AtEndKnown(t: Scan, rd: Reading, qi: nat, w: string)
    requires Agrees(t, rd, qi) && w != ""
    ensures var u := AtEnd(t, qi, w);
            && u.s == ModeOf(w[|w| - 1]) && u.pr == w[|w| - 1] && u.cpFrom == qi && u.prevWord == rd.prev && u.over == 0
  {
    hide Flat;
  }

  lemma UseIsWord(w: string, replaceNumbers: bool)
    requires IsWord(w, replaceNumbers) && ToLower(w) == "use"
    ensures ModeOf(w[|w| - 1]) == InWord && !IsSpace(w[|w| - 1])
  {
    LastOfWord(w, replaceNumbers);
    assert ToLower(w)[|w| - 1] == Lower(w[|w| - 1]);
  }

  lemma StopsThere(q: string, u: Scan, n: nat, replaceNumbers: bool)
    requires n < |q| && Reach(q, START, 0, n, replaceNumbers) == Continue(u)
    requires Step(q, u, n, replaceNumbers).Stop?
    ensures var m := Step(q, u, n, replaceNumbers); Run(q, START, 0, replaceNumbers) == Text(m.text, m.over)
  {
    hide Step, Reach;
    StartSound();
    RunReach(q, START, 0, n, replaceNumbers);
  }

  lemma CallStops(q: string, u: Scan, qi: nat, w: string, replaceNumbers: bool)
    requires Stands(q, qi, w) && qi + |w| < |q| && q[qi + |w|] == '(' && (u.s == InWord || u.s == InOp)
    requires u.cpFrom == qi && u.prevWord == "call" && u.over == 0
    ensures Step(q, u, qi + |w|, replaceNumbers) == Stop("call " + w, 0)
  {
    hide Skip, ToLower, IsList, OnSpace, OnMark;
    NothingSkipped(u, qi + |w|, q[qi + |w|], |q|);
  }

  /** A call has the fingerprint "call" and the name of the procedure as it is written, whatever comes after it. */
  lemma CallProcedure(query: string, items: seq<Item>, w: string, after: string, replaceNumbers: bool)
    requires Fitting(NOTHING, items, replaceNumbers) && query + " " == Spelled(items) + w + "(" + after
    requires var rd := ReadOn(NOTHING, items);
             rd.prev == "call" && CanBegin(rd, w) && |Flat(rd.pieces)| <= |query| + 1
    requires w != "" && IsWord(w, replaceNumbers)
    ensures FingerprintOf(query, replaceNumbers) == Text("call " + w, 0)
  {
    hide Reach, Run, Flat, Fitting, Step, IsWord, ToLower, Agrees, AtEnd, ReadOn, Spelled, CanBegin;
    var rd := ReadOn(NOTHING, items);
    var q, b := query + " ", |Spelled(items)|;
    assert q[0..0 + b] == Spelled(items);
    assert q[b..b + |w|] == w && q[b + |w|] == '(';
    AtStart();
    var t := ItemsTaken(q, START, NOTHING, 0, items, replaceNumbers);
    WordReadWhole(q, t, rd, b, w, replaceNumbers);
    var u := AtEnd(t, b, w);
    AtEndKnown(t, rd, b, w);
    CallStops(q, u, b, w, replaceNumbers);
    ReachJoin(q, START, 0, b, b + |w|, replaceNumbers);
    StopsThere(q, u, b + |w|, replaceNumbers);
  }
}
