/**
  String literals of MySQL: how the driver escapes a value, and how the server reads the literal, in the
  default SQL mode and under NO_BACKSLASH_ESCAPES (section 9.1.1 of the MySQL 5.7 Reference Manual).
 */
module SqlLiterals {
  import opened Wrappers
  import opened Wire

  const QUOTE: byte := 39
  const DOUBLE_QUOTE: byte := 34
  const BACKSLASH: byte := 92

  datatype SqlMode = BackslashEscapes | NoBackslashEscapes

  // ---------------------------------------------------------------- escaping

  function EscapeByte(mode: SqlMode, c: byte): (e: seq<byte>)
    ensures 1 <= |e| <= 2
  {
    match mode
    case NoBackslashEscapes => if c == QUOTE then [QUOTE, QUOTE] else [c]
    case BackslashEscapes =>
      if c == 0 then [BACKSLASH, 48]
      else if c == 10 then [BACKSLASH, 110]
      else if c == 13 then [BACKSLASH, 114]
      else if c == 26 then [BACKSLASH, 90]
      else if c == QUOTE || c == DOUBLE_QUOTE || c == BACKSLASH then [BACKSLASH, c]
      else [c]
  }

  function Escaped(mode: SqlMode, v: seq<byte>): (e: seq<byte>)
    ensures |v| <= |e| <= 2 * |v|
  {
    if v == [] then [] else EscapeByte(mode, v[0]) + Escaped(mode, v[1..])
  }

  // ---------------------------------------------------------------- reading a literal

  /** What a backslash and the byte after it stand for; wildcards keep the backslash. */
  function Unescaped(c: byte): seq<byte> {
    if c == 48 then [0]
    else if c == 98 then [8]
    else if c == 110 then [10]
    else if c == 114 then [13]
    else if c == 116 then [9]
    else if c == 90 then [26]
    else if c == 37 || c == 95 then [BACKSLASH, c]
    else [c]
  }

  /** Reads a literal from just after its opening quote: its value, and what follows the closing quote. */
  function Lex(mode: SqlMode, s: seq<byte>): Option<(seq<byte>, seq<byte>)> {
    if s == [] then None
    else if s[0] == QUOTE then
      if |s| >= 2 && s[1] == QUOTE then Before([QUOTE], Lex(mode, s[2..])) else Some(([], s[1..]))
    else if s[0] == BACKSLASH && mode.BackslashEscapes? then
      if |s| < 2 then None else Before(Unescaped(s[1]), Lex(mode, s[2..]))
    else Before([s[0]], Lex(mode, s[1..]))
  }

  function Before(head: seq<byte>, r: Option<(seq<byte>, seq<byte>)>): Option<(seq<byte>, seq<byte>)> {
    match r
    case None => None
    case Some(p) => Some((head + p.0, p.1))
  }

  lemma LexOne(mode: SqlMode, c: byte, s: seq<byte>)
    requires c != QUOTE && !(c == BACKSLASH && mode.BackslashEscapes?)
    ensures Lex(mode, [c] + s) == Before([c], Lex(mode, s))
  {
    assert ([c] + s)[1..] == s;
  }

  lemma LexTwo(mode: SqlMode, c: byte, s: seq<byte>)
    ensures mode.BackslashEscapes? ==> Lex(mode, [BACKSLASH, c] + s) == Before(Unescaped(c), Lex(mode, s))
    ensures Lex(mode, [QUOTE, QUOTE] + s) == Before([QUOTE], Lex(mode, s))
  {
    hide Unescaped;
    assert ([BACKSLASH, c] + s)[2..] == s && ([QUOTE, QUOTE] + s)[2..] == s;
  }

  lemma LexByte(mode: SqlMode, c: byte, s: seq<byte>)
    ensures Lex(mode, EscapeByte(mode, c) + s) == Before([c], Lex(mode, s))
  {
    hide Lex;
    var e := EscapeByte(mode, c);
    if |e| == 1 {
      LexOne(mode, c, s);
    } else {
      LexTwo(mode, e[1], s);
    }
  }

  lemma {:induction false} LexEscaped(mode: SqlMode, v: seq<byte>, s: seq<byte>)
    ensures Lex(mode, Escaped(mode, v) + s) == Before(v, Lex(mode, s))
  {
    hide Lex, EscapeByte;
    if v == [] {
      assert Escaped(mode, v) + s == s;
      if Lex(mode, s).Some? {
        assert [] + Lex(mode, s).value.0 == Lex(mode, s).value.0;
      }
    } else {
      var tail := Escaped(mode, v[1..]) + s;
      assert Escaped(mode, v) + s == EscapeByte(mode, v[0]) + tail;
      LexByte(mode, v[0], tail);
      LexEscaped(mode, v[1..], s);
      if Lex(mode, s).Some? {
        assert [v[0]] + (v[1..] + Lex(mode, s).value.0) == v + Lex(mode, s).value.0;
      }
    }
  }

  /**
    In both modes the server reads the quoted, escaped value as the value, and stops at the closing
    quote, if and only if no further quote follows directly.
   */
  lemma LiteralReadBack(mode: SqlMode, v: seq<byte>, rest: seq<byte>)
    ensures Lex(mode, Escaped(mode, v) + ([QUOTE] + rest)) == Some((v, rest)) <==> rest == [] || rest[0] != QUOTE
  {
    var s := [QUOTE] + rest;
    LexEscaped(mode, v, s);
    assert s[1..] == rest;
    if rest == [] || rest[0] != QUOTE {
      assert Lex(mode, s) == Some(([], rest));
      assert v + [] == v;
    } else {
      LexShrinks(mode, s[2..]);
    }
  }

  /** What follows a literal is shorter than what was read. */
  lemma {:induction false} LexShrinks(mode: SqlMode, s: seq<byte>)
    ensures Lex(mode, s).Some? ==> |Lex(mode, s).value.1| < |s|
    decreases |s|
  {
    if |s| >= 2 {
      LexShrinks(mode, s[2..]);
      LexShrinks(mode, s[1..]);
    } else if |s| == 1 {
      LexShrinks(mode, s[1..]);
    }
  }

  // ---------------------------------------------------------------- escaping into a buffer

  /** A slice from the front of an array, as the driver appends to it. */
  datatype Slice = Slice(arr: array<byte>, len: nat) {
    ghost predicate Valid() {
      len <= arr.Length
    }

    ghost function Bytes(): seq<byte>
      requires Valid()
      reads arr
    {
      arr[..len]
    }
  }

  /** Lengthens the slice, in a larger array if need be. */
  method ReserveBuffer(buf: Slice, appendSize: nat) returns (r: Slice)
    requires buf.Valid()
    ensures r.Valid() && r.len == buf.len + appendSize
    ensures r.arr == buf.arr || fresh(r.arr)
    ensures r.arr[..buf.len] == buf.Bytes()
  {
    var newSize := buf.len + appendSize;
    if buf.arr.Length < newSize {
      var grown := new byte[buf.len * 2 + appendSize](_ => 0);
      for i := 0 to buf.len
        invariant grown[..i] == buf.arr[..i]
      {
        grown[i] := buf.arr[i];
        assert grown[..i + 1] == grown[..i] + [buf.arr[i]];
      }
      return Slice(grown, newSize);
    }
    r := Slice(buf.arr, newSize);
  }

  method PutTwo(arr: array<byte>, pos: nat, a: byte, b: byte)
    requires pos + 2 <= arr.Length
    modifies arr
    ensures arr[..pos + 2] == old(arr[..pos]) + [a, b]
  {
    arr[pos] := a;
    arr[pos + 1] := b;
  }

  method PutByte(mode: SqlMode, arr: array<byte>, pos: nat, c: byte) returns (next: nat)
    requires pos + 2 <= arr.Length
    modifies arr
    ensures pos < next <= pos + 2 && arr[..next] == old(arr[..pos]) + EscapeByte(mode, c)
  {
    next := pos + 2;
    if mode.BackslashEscapes? && c == 0 {
      PutTwo(arr, pos, BACKSLASH, 48);
    } else if mode.BackslashEscapes? && c == 10 {
      PutTwo(arr, pos, BACKSLASH, 110);
    } else if mode.BackslashEscapes? && c == 13 {
      PutTwo(arr, pos, BACKSLASH, 114);
    } else if mode.BackslashEscapes? && c == 26 {
      PutTwo(arr, pos, BACKSLASH, 90);
    } else if mode.BackslashEscapes? && (c == QUOTE || c == DOUBLE_QUOTE || c == BACKSLASH) {
      PutTwo(arr, pos, BACKSLASH, c);
    } else if mode.NoBackslashEscapes? && c == QUOTE {
      PutTwo(arr, pos, QUOTE, QUOTE);
    } else {
      arr[pos] := c;
      next := pos + 1;
      assert arr[..next] == old(arr[..pos]) + [c];
    }
  }

  /** The reserved space, twice the length of the value, is never overrun. */
  method Escape(mode: SqlMode, buf: Slice, v: seq<byte>) returns (r: Slice)
    requires buf.Valid()
    modifies buf.arr
    ensures r.Valid() && (r.arr == buf.arr || fresh(r.arr))
    ensures r.Bytes() == old(buf.Bytes()) + Escaped(mode, v)
  {
    hide EscapeByte, Escaped;
    var pos: nat := buf.len;
    var space := ReserveBuffer(buf, |v| * 2);
    ghost var before := old(buf.Bytes());
    EscapedNone(mode);
    for i := 0 to |v|
      invariant pos + 2 * (|v| - i) <= space.len
      invariant space.arr[..pos] == before + Escaped(mode, v[..i])
    {
      ghost var done := Escaped(mode, v[..i]);
      EscapedNext(mode, v, i);
      pos := PutByte(mode, space.arr, pos, v[i]);
      assert before + done + EscapeByte(mode, v[i]) == before + (done + EscapeByte(mode, v[i]));
    }
    assert v[..|v|] == v;
    r := Slice(space.arr, pos);
  }

  lemma EscapedNone(mode: SqlMode)
    ensures Escaped(mode, []) == []
  {}

  lemma {:induction false} EscapedNext(mode: SqlMode, v: seq<byte>, i: nat)
    requires i < |v|
    ensures Escaped(mode, v[..i + 1]) == Escaped(mode, v[..i]) + EscapeByte(mode, v[i])
  {
    hide EscapeByte;
    if i > 0 {
      EscapedNext(mode, v[1..], i - 1);
      assert v[..i + 1][1..] == v[1..][..i] && v[..i][1..] == v[1..][..i - 1];
    } else {
      assert v[..1][1..] == [] && v[..0] == [];
      assert Escaped(mode, v[..1]) == EscapeByte(mode, v[0]) + Escaped(mode, []);
    }
  }
}
