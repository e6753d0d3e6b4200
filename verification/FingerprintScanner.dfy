/** The scanner as the loop that it is: variables updated in place and an output array. */
module FingerprintScanner {
  import opened Wrappers
  import opened Fingerprint

  datatype Flow = Falls | Continues | Stops(text: string) | ReturnsQuery | Panics

  /** What a part of the loop body has done is what its function says. */
  predicate Does(flow: Flow, after: Scan, spec: Next) {
    match spec
    case Go(t) => flow == Falls && after == t
    case Continue(t) => flow == Continues && after == t
    case Stop(text, _) => flow == Stops(text)
    case Verbatim => flow == ReturnsQuery
    case Panic => flow == Panics
  }

  /** The scalar variables of the loop. */
  datatype Vars = Vars(
    prevWord: string,
    pr: char,
    s: Mode,
    sqlState: Mode,
    quoteChar: char,
    cpFrom: int,
    cpTo: int,
    addSpace: bool,
    escape: bool,
    parOpen: int,
    parOpenTotal: int,
    valueNo: int,
    firstPar: int)

  class Scanner {
    const q: string
    const replaceNumbers: bool
    const f: array<char>
    var fi: nat
    var v: Vars

    ghost function Out(): string
      reads `fi, f
    {
      if fi <= f.Length then f[..fi] else f[..]
    }

    ghost function Over(): nat
      reads `fi
    {
      if fi <= f.Length then 0 else fi - f.Length
    }

    ghost function View(): Scan
      reads this, f
    {
      Scan(Out(), Over(), v.prevWord, v.pr, v.s, v.sqlState, v.quoteChar, v.cpFrom, v.cpTo, v.addSpace, v.escape,
           v.parOpen, v.parOpenTotal, v.valueNo, v.firstPar)
    }

    constructor (q: string, replaceNumbers: bool)
      ensures this.q == q && this.replaceNumbers == replaceNumbers && f.Length == |q| && fresh(f)
      ensures View() == START
    {
      this.q := q;
      this.replaceNumbers := replaceNumbers;
      f := new char[|q|](_ => '\0');
      fi := 0;
      v := Vars("", '\0', Unknown, Unknown, '\0', 0, 0, false, false, 0, 0, 0, 0);
      new;
      assert f[..0] == "";
    }

    // -------------------------------------------------------------- output

    method Write(c: char) returns (ok: bool)
      modifies `fi, f
      ensures Does(if ok then Falls else Panics, View(), Emit(old(View()), c, f.Length))
    {
      if fi >= f.Length { return false; }
      f[fi] := c;
      fi := fi + 1;
      ok := true;
      assert f[..fi] == old(f[..fi]) + [c];
    }

    method WriteIfRoom(c: char)
      modifies `fi, f
      ensures View() == EmitIfRoom(old(View()), c, f.Length)
    {
      if f.Length > fi {
        f[fi] := c;
        assert f[..fi + 1] == old(f[..fi]) + [c];
      } else if fi == f.Length {
        assert f[..fi] == f[..];
      }
      fi := fi + 1;
    }

    method WriteAll(w: string) returns (ok: bool)
      modifies `fi, f
      ensures Does(if ok then Falls else Panics, View(), EmitAll(old(View()), w, f.Length))
    {
      if fi + |w| > f.Length { return false; }
      for i := 0 to |w|
        invariant fi + |w| <= f.Length
        invariant f[..fi + i] == old(f[..fi]) + w[..i]
      {
        f[fi + i] := w[i];
        assert f[..fi + i + 1] == f[..fi + i] + [w[i]];
      }
      assert w[..|w|] == w;
      fi := fi + |w|;
      ok := true;
    }

    // -------------------------------------------------------------- 1. skipping

    method DoQuoted(qi: nat, r: char) returns (flow: Flow)
      modifies this, f
      ensures Does(flow, View(), SkipQuoted(old(View()), qi, r, f.Length))
    {
      hide Out, Over, Emit;
      flow := Continues;
      if r != v.quoteChar {
        v := v.(escape := !v.escape && r == '\\');
      } else if v.escape {
        v := v.(escape := false);
      } else {
        v := v.(escape := false, cpFrom := qi + 1);
        if v.sqlState == InValues {
          v := v.(s := InValues);
        } else {
          var ok := Write('?');
          if !ok { return Panics; }
          v := v.(s := Unknown);
        }
      }
    }

    method DoBackticks(qi: nat, r: char) returns (flow: Flow)
      modifies this
      ensures Does(flow, View(), SkipBackticks(old(View()), qi, r))
    {
      hide Out, Over;
      flow := Continues;
      if r != '`' {
        v := v.(escape := !v.escape && r == '\\');
      } else if v.escape {
        v := v.(escape := false);
      } else {
        v := v.(escape := false, cpTo := qi + 1, s := InWord);
      }
    }

    method DoNumberInWord(qi: nat, r: char) returns (flow: Flow)
      modifies this, f
      ensures Does(flow, View(), SkipNumberInWord(old(View()), qi, r, f.Length))
    {
      hide Out, Over, Emit;
      if IsDigit(r) { return Continues; }
      var ok := Write('?');
      if !ok { return Panics; }
      v := v.(cpFrom := qi, s := if IsSpace(r) then Unknown else InWord);
      flow := Falls;
    }

    method DoNumber(qi: nat, r: char) returns (flow: Flow)
      modifies this, f
      ensures Does(flow, View(), SkipNumber(old(View()), qi, r, f.Length))
    {
      hide Out, Over, Emit, InNumeral, EndsNumeral;
      if InNumeral(r) { return Continues; }
      if EndsNumeral(r) {
        v := v.(cpTo := qi, s := InWord);
      } else if v.sqlState == InMySQLCode {
        v := v.(cpTo := qi, s := InWord, sqlState := Unknown);
      } else {
        var ok := Write('?');
        if !ok { return Panics; }
        v := v.(cpFrom := qi, cpTo := qi, s := Unknown);
      }
      flow := Falls;
    }

    method DoEndValues(qi: nat, r: char) returns (flow: Flow)
      modifies this, f
      ensures Does(flow, View(), EndValues(old(View()), qi, r, f.Length))
    {
      hide Out, Over, EmitAll;
      v := v.(valueNo := v.valueNo + 1);
      if v.valueNo == 1 {
        var w := if qi - v.firstPar > 1 then "(?+)" else "()";
        v := v.(firstPar := 0);
        var ok := WriteAll(w);
        if !ok { return Panics; }
      }
      v := v.(s := MoreValuesOrUnknown, pr := r, cpFrom := qi + 1, parOpenTotal := 0);
      flow := Continues;
    }

    method DoValues(qi: nat, r: char) returns (flow: Flow)
      modifies this, f
      ensures Does(flow, View(), SkipValues(old(View()), qi, r, f.Length))
    {
      hide Out, Over, EndValues, IsSpace;
      if r == ')' {
        v := v.(parOpen := v.parOpen - 1);
        v := v.(parOpenTotal := v.parOpenTotal + 1);
        SpaceIsNot(r);
      } else if r == '(' {
        v := v.(parOpen := v.parOpen + 1);
        if v.parOpen == 1 {
          v := v.(firstPar := qi);
        }
        SpaceIsNot(r);
      } else if r == '\'' || r == '"' {
        v := v.(s := InQuote, quoteChar := r);
        return Continues;
      } else if IsSpace(r) {
        return Continues;
      }
      assert View() == Brackets(old(View()), qi, r);
      if v.parOpen > 0 { return Continues; }
      if v.parOpenTotal == 0 {
        v := v.(s := InWord);
        return Continues;
      }
      flow := DoEndValues(qi, r);
    }

    method DoSkip(qi: nat, r: char) returns (flow: Flow)
      modifies this, f
      ensures Does(flow, View(), Skip(old(View()), qi, r, f.Length))
    {
      hide Out, Over, SkipQuoted, SkipBackticks, SkipNumberInWord, SkipNumber, SkipValues, IsSpace;
      match v.s {
        case InQuote => flow := DoQuoted(qi, r);
        case InBackticks => flow := DoBackticks(qi, r);
        case InNumberInWord => flow := DoNumberInWord(qi, r);
        case InNumber => flow := DoNumber(qi, r);
        case InValues => flow := DoValues(qi, r);
        case InMLC =>
          if v.pr == '*' && r == '/' {
            v := v.(s := Unknown);
          } else {
            v := v.(pr := r);
          }
          flow := Continues;
        case MlcOrMySQLCode =>
          if r != '!' {
            v := v.(pr := r, s := InMLC);
            flow := Continues;
          } else {
            v := v.(s := InWord, sqlState := InMySQLCode);
            flow := Falls;
          }
        case InOLC =>
          if r == '\n' {
            v := v.(s := Unknown);
          }
          flow := Continues;
        case _ =>
          flow := Falls;
          if IsSpace(r) && IsSpace(v.pr) {
            v := v.(cpFrom := qi + 1, pr := r);
            flow := Continues;
          }
      }
    }

    // -------------------------------------------------------------- 2. changing state

    method DoDigit(qi: nat)
      modifies this
      ensures View() == OnDigit(old(View()), qi, replaceNumbers)
    {
      hide Out, Over;
      match v.s {
        case OpOrNumber =>
          v := v.(cpTo := qi - 1, s := InNumber);
        case InWord =>
          if v.pr == '(' || v.pr == ',' {
            v := v.(cpTo := qi, s := InNumber);
          } else if replaceNumbers {
            v := v.(s := InNumberInWord, cpTo := qi);
          }
        case _ =>
          v := v.(cpTo := qi, s := InNumber);
      }
    }

    method WriteNull(qi: nat, comma: bool) returns (ok: bool)
      modifies this, f
      ensures Does(if ok then Falls else Panics, View(), NullValue(old(View()), qi, comma, f.Length))
    {
      hide Out, Over, EmitAll, EmitIfRoom;
      ok := WriteAll(if comma then "?," else "?");
      if !ok { return; }
      WriteIfRoom(' ');
      v := v.(cpFrom := qi + 1);
    }

    method DropSpace(qi: nat, comma: bool) returns (ok: bool)
      modifies this, f
      ensures Does(if ok then Falls else Panics, View(), DropAsc(old(View()), qi, comma, f.Length))
    {
      v := v.(cpFrom := qi);
      if comma {
        if fi == 0 || fi >= f.Length { return false; }
        ghost var before := f[..fi];
        fi := fi - 1;
        f[fi] := ',';
        f[fi + 1] := ' ';
        fi := fi + 2;
        assert f[..fi] == before[..|before| - 1] + ", ";
      }
      ok := true;
    }

    method DoEndWord(qi: nat, word: string) returns (flow: Flow)
      modifies this, f
      ensures Does(flow, View(), EndWord(old(View()), qi, word, f.Length))
    {
      hide Out, Over, NullValue, DropAsc;
      if word == "use" && v.prevWord == "" {
        return Stops("use ?");
      } else if (word == "null" && v.prevWord != "is" && v.prevWord != "not") || word == "null," {
        var ok := WriteNull(qi, word == "null,");
        if !ok { return Panics; }
      } else if v.prevWord == "order" && word == "by" {
        v := v.(sqlState := OrderBy);
      } else if v.sqlState == OrderBy && (word == "asc" || word == "asc," || word == "asc ") {
        var ok := DropSpace(qi, word == "asc,");
        if !ok { return Panics; }
      } else if v.prevWord == "key" && word == "update" {
        v := v.(sqlState := OnDupeKeyUpdate);
      }
      v := v.(s := InSpace, cpTo := qi, addSpace := true);
      flow := Falls;
    }

    /** Whether the output ends in something other than a space; reading past the array is not ok. */
    method NeedsSpace() returns (ok: bool, needed: bool)
      ensures ok == (Over() == 0)
      ensures ok ==> needed == (Out() != "" && !IsSpace(Out()[|Out()| - 1]))
    {
      if fi > f.Length { return false, false; }
      ok, needed := true, fi > 0 && !IsSpace(f[fi - 1]);
    }

    method DoSpace(qi: nat) returns (flow: Flow)
      requires qi < |q|
      modifies this, f
      ensures Does(flow, View(), OnSpace(q, old(View()), qi, f.Length))
    {
      hide Out, Over, EndWord, IsSpace, EmitIfRoom;
      flow := Falls;
      match v.s {
        case Unknown =>
          var ok, needed := NeedsSpace();
          if !ok { return Panics; }
          if needed {
            WriteIfRoom(' ');
            v := v.(cpFrom := qi + 1);
          }
        case InDash =>
          v := v.(s := InOLC);
          if v.cpTo > 2 {
            v := v.(cpTo := qi - 2);
          }
        case MoreValuesOrUnknown =>
          if v.valueNo == 1 {
            WriteIfRoom(' ');
          }
        case _ =>
          if !(0 <= v.cpFrom <= qi) { return Panics; }
          flow := DoEndWord(qi, ToLower(q[v.cpFrom..qi]));
      }
    }

    method DoParen(qi: nat) returns (flow: Flow)
      requires qi < |q|
      modifies this
      ensures Does(flow, View(), OnParen(q, old(View()), qi))
    {
      hide Out, Over, IsList, ToLower;
      if v.prevWord == "call" {
        if !(0 <= v.cpFrom <= qi) { return Panics; }
        return Stops("call " + q[v.cpFrom..qi]);
      }
      var values := v.sqlState != OnDupeKeyUpdate && (v.s == InSpace || v.s == MoreValuesOrUnknown) && IsList(v.prevWord);
      if v.sqlState != OnDupeKeyUpdate && !values {
        if !(0 <= v.cpFrom <= qi) { return Panics; }
        values := IsList(ToLower(q[v.cpFrom..qi]));
      }
      if values {
        v := v.(s := InValues, sqlState := InValues, parOpen := 1, firstPar := qi);
        if v.valueNo == 0 {
          v := v.(cpTo := qi);
        }
      } else if v.s != InWord {
        v := v.(valueNo := 0, cpFrom := qi, s := InWord);
      }
      flow := Falls;
    }

    method DoMark(qi: nat, r: char)
      modifies this
      ensures View() == OnMark(old(View()), qi, r)
    {
      hide Out, Over;
      if r == '/' {
        v := v.(s := DivOrMLC);
      } else if r == '*' && v.s == DivOrMLC {
        v := v.(s := MlcOrMySQLCode);
      } else if r == '+' {
        v := v.(s := OpOrNumber);
      } else if r == '-' {
        v := v.(s := if v.pr == '-' then InDash else OpOrNumber);
      } else if r == '.' {
        if v.s == InNumber || v.s == InOp {
          v := v.(s := InNumber, cpTo := qi);
        }
      } else if r == ',' && v.s == MoreValuesOrUnknown {
      } else if r == '#' {
        v := v.(addSpace := false, s := InOLC);
      } else {
        if v.s != InWord && v.s != InOp {
          v := v.(valueNo := 0, cpFrom := qi);
          if v.sqlState == InValues {
            v := v.(sqlState := Unknown);
          }
        }
        v := v.(s := InWord);
      }
    }

    method DoChange(qi: nat) returns (flow: Flow)
      requires qi < |q|
      modifies this, f
      ensures Does(flow, View(), Change(q, old(View()), qi, replaceNumbers, f.Length))
    {
      hide Out, Over, OnDigit, OnSpace, OnParen, OnMark, IsSpace, IsDigit;
      var r := q[qi];
      flow := Falls;
      if IsDigit(r) {
        DoDigit(qi);
      } else if IsSpace(r) {
        flow := DoSpace(qi);
      } else if r == '\'' || r == '"' {
        if v.pr != '\\' && v.s != InQuote {
          v := v.(s := InQuote, quoteChar := r, cpTo := if v.pr == 'x' || v.pr == 'b' then -2 else qi);
        }
      } else if r == '`' {
        if v.pr != '\\' && v.s != InBackticks {
          v := v.(s := InBackticks);
        }
      } else if r == '=' || r == '<' || r == '>' || r == '!' {
        if v.s != InWord && v.s != InOp {
          v := v.(cpFrom := qi);
        }
        v := v.(s := InOp);
      } else if r == '(' {
        flow := DoParen(qi);
      } else if r == ':' && v.prevWord == "administrator" {
        return ReturnsQuery;
      } else {
        DoMark(qi, r);
      }
    }

    // -------------------------------------------------------------- 3. copying

    method DoCopy() returns (flow: Flow)
      modifies this, f
      ensures Does(flow, View(), Copy(q, old(View()), f.Length))
    {
      hide Out, Over, EmitAll, EmitIfRoom, IsList, ToLower;
      flow := Falls;
      if v.cpTo > v.cpFrom {
        if v.cpFrom < 0 || v.cpTo > |q| { return Panics; }
        v := v.(prevWord := ToLower(q[v.cpFrom..v.cpTo]), cpFrom := v.cpTo);
        var ok := WriteAll(v.prevWord);
        if !ok { return Panics; }
        if IsList(v.prevWord) && v.sqlState != OnDupeKeyUpdate {
          v := v.(addSpace := false, s := InValues, sqlState := InValues);
        } else if v.addSpace {
          WriteIfRoom(' ');
          v := v.(cpFrom := v.cpFrom + 1, addSpace := false);
        }
      }
    }

    // -------------------------------------------------------------- the loop

    method DoStep(qi: nat) returns (flow: Flow)
      requires qi < |q| && f.Length == |q|
      modifies this, f
      ensures Does(flow, View(), Step(q, old(View()), qi, replaceNumbers))
    {
      hide Out, Over, Skip, Change, Copy;
      flow := DoSkip(qi, q[qi]);
      if flow != Falls { return; }
      flow := DoChange(qi);
      if flow != Falls { return; }
      flow := DoCopy();
      if flow != Falls { return; }
      v := v.(pr := q[qi]);
      flow := Continues;
    }

    /** The end of the scan: trailing spaces go, and so do NUL characters. */
    method Close() returns (text: string)
      modifies `fi
      ensures old(View().over) == 0 ==> text == DropNul(Trim(old(View().out)))
      ensures old(View().over) > 0 ==> text == ""
    {
      ghost var out := View().out;
      while fi > 0 && f.Length > fi - 1 && IsSpace(f[fi - 1])
        invariant old(fi) <= f.Length ==> fi <= f.Length && Trim(f[..fi]) == Trim(out)
        invariant old(fi) > f.Length ==> fi == old(fi)
      {
        assert f[..fi][..fi - 1] == f[..fi - 1];
        fi := fi - 1;
      }
      if f.Length < fi { return ""; }
      assert Trim(f[..fi]) == f[..fi];
      text := RemoveNul(f[..fi]);
    }
  }

  lemma SpaceIsNot(r: char)
    requires r == '(' || r == ')'
    ensures !IsSpace(r)
  {}

  method RemoveNul(w: string) returns (text: string)
    ensures text == DropNul(w)
  {
    text := "";
    for i := 0 to |w|
      invariant text + DropNul(w[i..]) == DropNul(w)
    {
      if w[i] != '\0' {
        text := text + [w[i]];
      }
      assert w[i..][1..] == w[i + 1..];
    }
  }

  /** The fingerprint of a query; None is an index out of range. */
  method Run(query: string, replaceNumbers: bool) returns (r: Result)
    ensures match FingerprintOf(query, replaceNumbers)
            case Text(t, _) => r == Returned(t)
            case Whole => r == Returned(query)
            case Crash => r == Panicked
  {
    hide Step, Finish;
    var q := query + " ";
    var sc := new Scanner(q, replaceNumbers);
    ghost var spec := FingerprintOf(query, replaceNumbers);
    for qi := 0 to |q|
      invariant fresh(sc) && fresh(sc.f) && sc.f.Length == |q| && sc.q == q && sc.replaceNumbers == replaceNumbers
      invariant spec == Fingerprint.Run(q, sc.View(), qi, replaceNumbers)
    {
      var flow := sc.DoStep(qi);
      match flow {
        case Stops(text) => return Returned(text);
        case ReturnsQuery => return Returned(q[..|q| - 1]);
        case Panics => return Panicked;
        case _ =>
      }
    }
    Ended(q, sc.View(), replaceNumbers);
    var text := sc.Close();
    r := Returned(text);
  }

  datatype Result = Returned(text: string) | Panicked

  lemma Ended(q: string, st: Scan, replaceNumbers: bool)
    ensures Fingerprint.Run(q, st, |q|, replaceNumbers)
         == Text(if st.over > 0 then "" else DropNul(Trim(st.out)), st.over)
  {}
}
