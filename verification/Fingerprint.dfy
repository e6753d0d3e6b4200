/**
  The SQL fingerprinter: one pass over the query with twenty states and two offsets, cpFrom and cpTo,
  between which the query is copied to the fingerprint. Queries are ASCII, so a position is an index.
 */
module Fingerprint {
  datatype Mode =
    | Unknown
    | InWord
    | InNumber
    | InSpace
    | InOp
    | OpOrNumber
    | InQuote
    | SubOrOLC
    | InDash
    | InOLC
    | DivOrMLC
    | MlcOrMySQLCode
    | InMLC
    | InValues
    | MoreValuesOrUnknown
    | OrderBy
    | OnDupeKeyUpdate
    | InNumberInWord
    | InBackticks
    | InMySQLCode

  /**
    The variables of the scan. The output array is as long as the query: `out` is its part that is
    filled, and `over` counts how far the output index has run past the end of the array.
   */
  datatype Scan = Scan(
    out: string,
    over: nat,
    prevWord: string,
    pr: char,
    s: Mode,
    sqlState: Mode,
    quoteChar: char,
    cpFrom: int,
    cpTo: int,
    addSpace: bool,
    escape: bool,
    parOpen: int,
    parOpenTotal: int,
    valueNo: int,
    firstPar: int)

  /** What a part of the loop body does: go on, start the next round, return, or index out of range. */
  datatype Next =
    | Go(st: Scan)
    | Continue(st: Scan)
    | Stop(text: string, over: nat)
    | Verbatim
    | Panic

  const START := Scan("", 0, "", '\0', Unknown, Unknown, '\0', 0, 0, false, false, 0, 0, 0, 0)

  // ---------------------------------------------------------------- characters and words

  predicate IsSpace(r: char) {
    r == ' ' || r == '\t' || r == '\r' || r == '\n'
  }

  predicate IsDigit(r: char) {
    '0' <= r <= '9'
  }

  predicate InNumeral(r: char) {
    IsDigit(r) || 'a' <= r <= 'f' || 'A' <= r <= 'F' || r == '.' || r == 'x' || r == '-'
  }

  predicate EndsNumeral(r: char) {
    'g' <= r <= 'z' || 'G' <= r <= 'Z' || r == '_'
  }

  function Lower(r: char): char {
    if 'A' <= r <= 'Z' then r + 32 as char else r
  }

  function ToLower(w: string): (l: string)
    ensures |l| == |w|
  {
    seq(|w|, i requires 0 <= i < |w| => Lower(w[i]))
  }

  predicate IsList(w: string) {
    w == "value" || w == "values" || w == "in"
  }

  // ---------------------------------------------------------------- output

  function Emit(st: Scan, c: char, cap: nat): (n: Next)
    ensures n.Panic? || (n.Go? && n.st.(out := st.out) == st)
  {
    if st.over == 0 && |st.out| < cap then Go(st.(out := st.out + [c])) else Panic
  }

  /** A write that is left out when the array is full, though the index moves on. */
  function EmitIfRoom(st: Scan, c: char, cap: nat): (t: Scan)
    ensures t.(out := st.out, over := st.over) == st && t.over >= st.over
  {
    if st.over == 0 && |st.out| < cap then st.(out := st.out + [c]) else st.(over := st.over + 1)
  }

  function EmitAll(st: Scan, w: string, cap: nat): (n: Next)
    ensures n.Panic? || (n.Go? && n.st.(out := st.out) == st)
  {
    if st.over == 0 && |st.out| + |w| <= cap then Go(st.(out := st.out + w)) else Panic
  }

  // ---------------------------------------------------------------- 1. skipping

  function SkipQuoted(st: Scan, qi: nat, r: char, cap: nat): Next {
    if r != st.quoteChar then Continue(st.(escape := !st.escape && r == '\\'))
    else if st.escape then Continue(st.(escape := false))
    else
      var done := st.(escape := false, cpFrom := qi + 1);
      if st.sqlState == InValues then Continue(done.(s := InValues))
      else
        match Emit(done, '?', cap)
        case Go(t) => Continue(t.(s := Unknown))
        case other => other
  }

  function SkipBackticks(st: Scan, qi: nat, r: char): Next {
    if r != '`' then Continue(st.(escape := !st.escape && r == '\\'))
    else if st.escape then Continue(st.(escape := false))
    else Continue(st.(escape := false, cpTo := qi + 1, s := InWord))
  }

  function SkipNumberInWord(st: Scan, qi: nat, r: char, cap: nat): Next {
    if IsDigit(r) then Continue(st)
    else
      match Emit(st, '?', cap)
      case Go(t) => Go(t.(cpFrom := qi, s := if IsSpace(r) then Unknown else InWord))
      case other => other
  }

  function SkipNumber(st: Scan, qi: nat, r: char, cap: nat): Next {
    if InNumeral(r) then Continue(st)
    else if EndsNumeral(r) then Go(st.(cpTo := qi, s := InWord))
    else if st.sqlState == InMySQLCode then Go(st.(cpTo := qi, s := InWord, sqlState := Unknown))
    else
      match Emit(st, '?', cap)
      case Go(t) => Go(t.(cpFrom := qi, cpTo := qi, s := Unknown))
      case other => other
  }

  /** The end of a bracketed list of values: only the first list is written. */
  function EndValues(st: Scan, qi: nat, r: char, cap: nat): Next {
    var counted := st.(valueNo := st.valueNo + 1);
    var written := if counted.valueNo != 1 then Go(counted)
                   else EmitAll(counted.(firstPar := 0), if qi - st.firstPar > 1 then "(?+)" else "()", cap);
    match written
    case Go(t) => Continue(t.(s := MoreValuesOrUnknown, pr := r, cpFrom := qi + 1, parOpenTotal := 0))
    case other => other
  }

  function Brackets(st: Scan, qi: nat, r: char): Scan {
    if r == ')' then st.(parOpen := st.parOpen - 1, parOpenTotal := st.parOpenTotal + 1)
    else if r == '(' then
      st.(parOpen := st.parOpen + 1, firstPar := if st.parOpen + 1 == 1 then qi else st.firstPar)
    else st
  }

  function SkipValues(st: Scan, qi: nat, r: char, cap: nat): Next {
    if r == '\'' || r == '"' then Continue(st.(s := InQuote, quoteChar := r))
    else if IsSpace(r) then Continue(st)
    else
      var t := Brackets(st, qi, r);
      if t.parOpen > 0 then Continue(t)
      else if t.parOpenTotal == 0 then Continue(t.(s := InWord))
      else EndValues(t, qi, r, cap)
  }

  function Skip(st: Scan, qi: nat, r: char, cap: nat): Next {
    match st.s
    case InQuote => SkipQuoted(st, qi, r, cap)
    case InBackticks => SkipBackticks(st, qi, r)
    case InNumberInWord => SkipNumberInWord(st, qi, r, cap)
    case InNumber => SkipNumber(st, qi, r, cap)
    case InValues => SkipValues(st, qi, r, cap)
    case InMLC => Continue(if st.pr == '*' && r == '/' then st.(s := Unknown) else st.(pr := r))
    case MlcOrMySQLCode =>
      if r != '!' then Continue(st.(pr := r, s := InMLC)) else Go(st.(s := InWord, sqlState := InMySQLCode))
    case InOLC => Continue(if r == '\n' then st.(s := Unknown) else st)
    case _ => if IsSpace(r) && IsSpace(st.pr) then Continue(st.(cpFrom := qi + 1, pr := r)) else Go(st)
  }

  // ---------------------------------------------------------------- 2. changing state

  function OnDigit(st: Scan, qi: nat, replaceNumbers: bool): Scan {
    match st.s
    case OpOrNumber => st.(cpTo := qi - 1, s := InNumber)
    case InOp => st.(cpTo := qi, s := InNumber)
    case InWord =>
      if st.pr == '(' || st.pr == ',' then st.(cpTo := qi, s := InNumber)
      else if replaceNumbers then st.(cpTo := qi, s := InNumberInWord)
      else st
    case _ => st.(cpTo := qi, s := InNumber)
  }

  function NullValue(st: Scan, qi: nat, comma: bool, cap: nat): Next {
    match EmitAll(st, if comma then "?," else "?", cap)
    case Go(t) => Go(EmitIfRoom(t, ' ', cap).(cpFrom := qi + 1))
    case other => other
  }

  /** ASC before a comma: the space before it becomes the comma. */
  function DropAsc(st: Scan, qi: nat, comma: bool, cap: nat): Next {
    var moved := st.(cpFrom := qi);
    if !comma then Go(moved)
    else if st.over > 0 || st.out == "" || |st.out| >= cap then Panic
    else Go(moved.(out := st.out[..|st.out| - 1] + ", "))
  }

  function EndWord(st: Scan, qi: nat, word: string, cap: nat): Next {
    if word == "use" && st.prevWord == "" then Stop("use ?", st.over)
    else
      var n := if (word == "null" && st.prevWord != "is" && st.prevWord != "not") || word == "null,"
               then NullValue(st, qi, word == "null,", cap)
               else if st.prevWord == "order" && word == "by" then Go(st.(sqlState := OrderBy))
               else if st.sqlState == OrderBy && (word == "asc" || word == "asc," || word == "asc ")
               then DropAsc(st, qi, word == "asc,", cap)
               else if st.prevWord == "key" && word == "update" then Go(st.(sqlState := OnDupeKeyUpdate))
               else Go(st);
      match n
      case Go(t) => Go(t.(s := InSpace, cpTo := qi, addSpace := true))
      case other => other
  }

  function OnSpace(q: string, st: Scan, qi: nat, cap: nat): Next
    requires qi < |q|
  {
    match st.s
    case Unknown =>
      if st.over > 0 then Panic
      else if st.out != "" && !IsSpace(st.out[|st.out| - 1]) then Go(EmitIfRoom(st, ' ', cap).(cpFrom := qi + 1))
      else Go(st)
    case InDash => Go(st.(s := InOLC, cpTo := if st.cpTo > 2 then qi - 2 else st.cpTo))
    case MoreValuesOrUnknown => Go(if st.valueNo == 1 then EmitIfRoom(st, ' ', cap) else st)
    case _ =>
      if 0 <= st.cpFrom <= qi then EndWord(st, qi, ToLower(q[st.cpFrom..qi]), cap) else Panic
  }

  function OnQuote(st: Scan, qi: nat, r: char): Scan {
    if st.pr == '\\' || st.s == InQuote then st
    else st.(s := InQuote, quoteChar := r, cpTo := if st.pr == 'x' || st.pr == 'b' then -2 else qi)
  }

  function OnBacktick(st: Scan): Scan {
    if st.pr == '\\' || st.s == InBackticks then st else st.(s := InBackticks)
  }

  function OnOperator(st: Scan, qi: nat): Scan {
    st.(cpFrom := if st.s != InWord && st.s != InOp then qi else st.cpFrom, s := InOp)
  }

  function BeginValues(st: Scan, qi: nat): Scan {
    st.(s := InValues, sqlState := InValues, parOpen := 1, firstPar := qi,
        cpTo := if st.valueNo == 0 then qi else st.cpTo)
  }

  function OnParen(q: string, st: Scan, qi: nat): Next
    requires qi < |q|
  {
    var sliced := 0 <= st.cpFrom <= qi;
    if st.prevWord == "call" then (if sliced then Stop("call " + q[st.cpFrom..qi], st.over) else Panic)
    else if st.sqlState != OnDupeKeyUpdate && (st.s == InSpace || st.s == MoreValuesOrUnknown) && IsList(st.prevWord)
    then Go(BeginValues(st, qi))
    else if st.sqlState != OnDupeKeyUpdate && !sliced then Panic
    else if st.sqlState != OnDupeKeyUpdate && IsList(ToLower(q[st.cpFrom..qi])) then Go(BeginValues(st, qi))
    else if st.s != InWord then Go(st.(valueNo := 0, cpFrom := qi, s := InWord))
    else Go(st)
  }

  function OnOther(st: Scan, qi: nat): Scan {
    if st.s == InWord || st.s == InOp then st.(s := InWord)
    else st.(valueNo := 0, cpFrom := qi, s := InWord,
             sqlState := if st.sqlState == InValues then Unknown else st.sqlState)
  }

  function OnMark(st: Scan, qi: nat, r: char): Scan {
    if r == '/' then st.(s := DivOrMLC)
    else if r == '*' && st.s == DivOrMLC then st.(s := MlcOrMySQLCode)
    else if r == '+' then st.(s := OpOrNumber)
    else if r == '-' then st.(s := if st.pr == '-' then InDash else OpOrNumber)
    else if r == '.' then (if st.s == InNumber || st.s == InOp then st.(s := InNumber, cpTo := qi) else st)
    else if r == ',' && st.s == MoreValuesOrUnknown then st
    else if r == '#' then st.(addSpace := false, s := InOLC)
    else OnOther(st, qi)
  }

  function Change(q: string, st: Scan, qi: nat, replaceNumbers: bool, cap: nat): Next
    requires qi < |q|
  {
    var r := q[qi];
    if IsDigit(r) then Go(OnDigit(st, qi, replaceNumbers))
    else if IsSpace(r) then OnSpace(q, st, qi, cap)
    else if r == '\'' || r == '"' then Go(OnQuote(st, qi, r))
    else if r == '`' then Go(OnBacktick(st))
    else if r == '=' || r == '<' || r == '>' || r == '!' then Go(OnOperator(st, qi))
    else if r == '(' then OnParen(q, st, qi)
    else if r == ':' && st.prevWord == "administrator" then Verbatim
    else Go(OnMark(st, qi, r))
  }

  // ---------------------------------------------------------------- 3. copying

  function Copied(st: Scan, word: string, cap: nat): Next {
    match EmitAll(st.(prevWord := word, cpFrom := st.cpTo), word, cap)
    case Go(t) =>
      if IsList(word) && t.sqlState != OnDupeKeyUpdate then
        Go(t.(addSpace := false, s := InValues, sqlState := InValues))
      else if t.addSpace then Go(EmitIfRoom(t, ' ', cap).(cpFrom := t.cpFrom + 1, addSpace := false))
      else Go(t)
    case other => other
  }

  function Copy(q: string, st: Scan, cap: nat): Next {
    if st.cpTo <= st.cpFrom then Go(st)
    else if st.cpFrom < 0 || st.cpTo > |q| then Panic
    else Copied(st, ToLower(q[st.cpFrom..st.cpTo]), cap)
  }

  // ---------------------------------------------------------------- the loop

  function Step(q: string, st: Scan, qi: nat, replaceNumbers: bool): Next
    requires qi < |q|
  {
    match Skip(st, qi, q[qi], |q|)
    case Go(t) =>
      (match Change(q, t, qi, replaceNumbers, |q|)
       case Go(u) =>
         (match Copy(q, u, |q|)
          case Go(v) => Continue(v.(pr := q[qi]))
          case other => other)
       case other => other)
    case other => other
  }

  datatype Outcome = Text(text: string, over: nat) | Whole | Crash

  function Trim(out: string): string {
    if out != "" && IsSpace(out[|out| - 1]) then Trim(out[..|out| - 1]) else out
  }

  function DropNul(out: string): string {
    if out == "" then "" else (if out[0] == '\0' then "" else [out[0]]) + DropNul(out[1..])
  }

  function Finish(st: Scan): Outcome {
    Text(if st.over > 0 then "" else DropNul(Trim(st.out)), st.over)
  }

  /** The scan of q from position qi on. */
  function Run(q: string, st: Scan, qi: nat, replaceNumbers: bool): Outcome
    requires qi <= |q|
    decreases |q| - qi
  {
    if qi == |q| then Finish(st)
    else
      match Step(q, st, qi, replaceNumbers)
      case Go(t) => Run(q, t, qi + 1, replaceNumbers)
      case Continue(t) => Run(q, t, qi + 1, replaceNumbers)
      case Stop(text, over) => Text(text, over)
      case Verbatim => Whole
      case Panic => Crash
  }

  function FingerprintOf(query: string, replaceNumbers: bool): Outcome {
    Run(query + " ", START, 0, replaceNumbers)
  }
}
