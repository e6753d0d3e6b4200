/** Client-side interpolation: every placeholder of a query is replaced by its rendered argument. */
module Interpolation {
  import opened Wrappers
  import opened Wire
  import opened SqlLiterals

  const PLACEHOLDER: byte := 63
  const NULL: seq<byte> := [78, 85, 76, 76]
  const BINARY: seq<byte> := [95, 98, 105, 110, 97, 114, 121]

  /** A moment, as the calendar tells it in the connection's time zone, rounded to the microsecond. */
  datatype Date =
    Date(year: nat, month: nat, day: nat, hour: nat, minute: nat, second: nat, micro: nat)

  type Moment = d: Date |
    d.year <= 9999 && d.month <= 12 && d.day <= 31 && d.hour <= 23 && d.minute <= 59 && d.second <= 59
    && d.micro <= 999_999
    witness Date(1970, 1, 1, 0, 0, 0, 0)

  /** An argument. The text of numbers comes from the formatting libraries; no moment is the zero time. */
  datatype Arg =
    | Nil
    | Formatted(text: seq<byte>)
    | TimeArg(time: Option<Moment>)
    | Bool(b: bool)
    | BytesArg(bytes: Option<seq<byte>>)
    | StringArg(str: seq<byte>)
    | Unsupported

  function Quoted(mode: SqlMode, v: seq<byte>): seq<byte> {
    [QUOTE] + Escaped(mode, v) + [QUOTE]
  }

  // ---------------------------------------------------------------- times

  function Digits(n: nat): (s: seq<byte>)
    requires n < 100
    ensures |s| == 2
  {
    [48 + n / 10, 48 + n % 10]
  }

  function Fraction(micro: nat): seq<byte>
    requires micro <= 999_999
  {
    if micro == 0 then []
    else [46] + Digits(micro / 10000) + Digits(micro / 100 % 100) + Digits(micro % 100)
  }

  /** A time between its quotes. */
  function TimeText(t: Option<Moment>): seq<byte> {
    match t
    case None => Ascii("0000-00-00")
    case Some(d) => Day(d) + [32] + Clock(d) + Fraction(d.micro)
  }

  function Day(d: Moment): seq<byte> {
    Digits(d.year / 100) + Digits(d.year % 100) + [45] + Digits(d.month) + [45] + Digits(d.day)
  }

  function Clock(d: Moment): seq<byte> {
    Digits(d.hour) + [58] + Digits(d.minute) + [58] + Digits(d.second)
  }

  /** The bytes of an ASCII text. */
  function Ascii(s: string): (b: seq<byte>)
    ensures |b| == |s|
  {
    seq(|s|, i requires 0 <= i < |s| => if s[i] < 128 as char then s[i] as int else PLACEHOLDER)
  }

  /** The number that decimal digits stand for. */
  function Decimal(s: seq<byte>): int {
    if s == [] then 0 else 10 * Decimal(s[..|s| - 1]) + s[|s| - 1] - 48
  }

  lemma DigitsBack(n: nat)
    requires n < 100
    ensures Decimal(Digits(n)) == n
  {
    var s := Digits(n);
    assert s[..1] == [s[0]] && s[..1][..0] == [];
    assert Decimal(s[..1]) == s[0] - 48;
  }

  lemma {:induction false} DecimalJoin(a: seq<byte>, n: nat)
    requires n < 100
    ensures Decimal(a + Digits(n)) == 100 * Decimal(a) + n
  {
    var s := a + Digits(n);
    assert s[..|s| - 1] == a + [48 + n / 10];
    assert (a + [48 + n / 10])[..|a|] == a;
  }

  /** The text of a time tells the moment: each number at its place, and the fraction only if there is one. */
  lemma TimeReadBack(d: Moment)
    ensures var s := TimeText(Some(d));
            && |s| == (if d.micro == 0 then 19 else 26)
            && Decimal(s[..4]) == d.year && s[4] == 45 && Decimal(s[5..7]) == d.month && s[7] == 45
            && Decimal(s[8..10]) == d.day && s[10] == 32 && Decimal(s[11..13]) == d.hour && s[13] == 58
            && Decimal(s[14..16]) == d.minute && s[16] == 58 && Decimal(s[17..19]) == d.second
            && (d.micro > 0 ==> s[19] == 46 && Decimal(s[20..]) == d.micro)
  {
    hide Digits, Decimal;
    var s := TimeText(Some(d));
    DigitsBack(d.month);
    DigitsBack(d.day);
    DigitsBack(d.hour);
    DigitsBack(d.minute);
    DigitsBack(d.second);
    DigitsBack(d.year / 100);
    DecimalJoin(Digits(d.year / 100), d.year % 100);
    assert s[..4] == Digits(d.year / 100) + Digits(d.year % 100);
    assert s[5..7] == Digits(d.month) && s[8..10] == Digits(d.day) && s[11..13] == Digits(d.hour);
    assert s[14..16] == Digits(d.minute) && s[17..19] == Digits(d.second);
    if d.micro > 0 {
      var a, b, c := d.micro / 10000, d.micro / 100 % 100, d.micro % 100;
      DigitsBack(a);
      DecimalJoin(Digits(a), b);
      DecimalJoin(Digits(a) + Digits(b), c);
      assert s[20..] == Digits(a) + Digits(b) + Digits(c);
      MicroParts(d.micro);
    }
  }

  lemma MicroParts(m: nat)
    ensures m == 10000 * (m / 10000) + 100 * (m / 100 % 100) + m % 100
  {}

  function Rendered(mode: SqlMode, a: Arg): seq<byte>
    requires !a.Unsupported?
  {
    match a
    case Nil => NULL
    case Formatted(text) => text
    case TimeArg(t) => [QUOTE] + TimeText(t) + [QUOTE]
    case Bool(b) => if b then [49] else [48]
    case BytesArg(None) => NULL
    case BytesArg(Some(v)) => BINARY + Quoted(mode, v)
    case StringArg(v) => Quoted(mode, v)
  }

  /** The texts of arguments, as characters. */
  lemma RenderedTexts(mode: SqlMode, text: seq<byte>, v: seq<byte>)
    ensures Rendered(mode, Nil) == Rendered(mode, BytesArg(None)) == Ascii("NULL")
    ensures Rendered(mode, Bool(true)) == Ascii("1") && Rendered(mode, Bool(false)) == Ascii("0")
    ensures Rendered(mode, Formatted(text)) == text
    ensures Rendered(mode, StringArg(v)) == Ascii("'") + Escaped(mode, v) + Ascii("'")
    ensures Rendered(mode, BytesArg(Some(v))) == Ascii("_binary'") + Escaped(mode, v) + Ascii("'")
    ensures Rendered(mode, TimeArg(None)) == Ascii("'0000-00-00'")
  {
    hide Escaped;
    assert NULL == Ascii("NULL") && BINARY + [QUOTE] == Ascii("_binary'") && [QUOTE] == Ascii("'");
    assert [QUOTE] + Ascii("0000-00-00") + [QUOTE] == Ascii("'0000-00-00'");
    assert BINARY + ([QUOTE] + Escaped(mode, v) + [QUOTE]) == (BINARY + [QUOTE]) + Escaped(mode, v) + [QUOTE];
  }

  // ---------------------------------------------------------------- segments

  function CountPlaceholders(query: seq<byte>): nat {
    if query == [] then 0 else (if query[0] == PLACEHOLDER then 1 else 0) + CountPlaceholders(query[1..])
  }

  /** The index of the first placeholder, or the length. */
  function FirstPlaceholder(query: seq<byte>): (i: nat)
    ensures i <= |query|
    ensures forall k :: 0 <= k < i ==> query[k] != PLACEHOLDER
    ensures i < |query| ==> query[i] == PLACEHOLDER
  {
    if query == [] || query[0] == PLACEHOLDER then 0 else 1 + FirstPlaceholder(query[1..])
  }

  /** The parts of the query between its placeholders. */
  function Segments(query: seq<byte>): (r: seq<seq<byte>>)
    ensures |r| >= 1
    decreases |query|
  {
    var i := FirstPlaceholder(query);
    if i == |query| then [query] else [query[..i]] + Segments(query[i + 1..])
  }

  /** Segments and texts in turn, beginning and ending with a segment. */
  function Weave(segments: seq<seq<byte>>, texts: seq<seq<byte>>): seq<byte>
    requires |segments| == |texts| + 1
  {
    if texts == [] then segments[0] else segments[0] + texts[0] + Weave(segments[1..], texts[1..])
  }

  lemma {:induction false} CountSkips(query: seq<byte>, i: nat)
    requires i <= FirstPlaceholder(query)
    ensures CountPlaceholders(query) == CountPlaceholders(query[i..])
  {
    if i > 0 {
      CountSkips(query[1..], i - 1);
      assert query[1..][i - 1..] == query[i..];
    } else {
      assert query[0..] == query;
    }
  }

  /** There is a segment more than there are placeholders. */
  lemma {:induction false} SegmentsCount(query: seq<byte>)
    ensures |Segments(query)| == CountPlaceholders(query) + 1
    decreases |query|
  {
    var i := FirstPlaceholder(query);
    CountSkips(query, i);
    if i < |query| {
      SegmentsCount(query[i + 1..]);
      assert query[i..][1..] == query[i + 1..];
    }
  }

  function Marks(n: nat): (r: seq<seq<byte>>)
    ensures |r| == n
  {
    seq(n, _ => [PLACEHOLDER])
  }

  /** Putting the placeholders back gives the query. */
  lemma {:induction false} SegmentsJoin(query: seq<byte>)
    ensures |Segments(query)| == CountPlaceholders(query) + 1
    ensures Weave(Segments(query), Marks(CountPlaceholders(query))) == query
    decreases |query|
  {
    hide CountPlaceholders, FirstPlaceholder, Weave;
    SegmentsCount(query);
    FirstSplits(query);
    var i := FirstPlaceholder(query);
    if i < |query| {
      var rest := query[i + 1..];
      SegmentsJoin(rest);
      MarksWoven(query[..i], Segments(rest), CountPlaceholders(rest));
      assert query == query[..i] + [PLACEHOLDER] + rest;
    } else {
      NothingWoven(query);
    }
  }

  lemma NothingWoven(query: seq<byte>)
    ensures Weave([query], Marks(0)) == query
  {}

  lemma MarksWoven(first: seq<byte>, segments: seq<seq<byte>>, n: nat)
    requires |segments| == n + 1
    ensures Weave([first] + segments, Marks(n + 1)) == first + [PLACEHOLDER] + Weave(segments, Marks(n))
  {
    assert Marks(n + 1)[1..] == Marks(n) && ([first] + segments)[1..] == segments;
  }

  predicate Supported(args: seq<Arg>) {
    forall a :: a in args ==> !a.Unsupported?
  }

  function Texts(mode: SqlMode, args: seq<Arg>): (r: seq<seq<byte>>)
    requires Supported(args)
    ensures |r| == |args|
  {
    seq(|args|, i requires 0 <= i < |args| => Rendered(mode, args[i]))
  }

  /** After every argument but a nil one, the text so far must fit a packet. */
  predicate WithinLimit(mode: SqlMode, limit: int, n: nat, segments: seq<seq<byte>>, args: seq<Arg>)
    requires |segments| == |args| + 1 && Supported(args)
    decreases |args|
  {
    args == [] ||
    var m := n + |segments[0]| + |Rendered(mode, args[0])|;
    (args[0].Nil? || m + 4 <= limit) && WithinLimit(mode, limit, m, segments[1..], args[1..])
  }

  /** The loop, from the text built so far and what is left of the query and the arguments. */
  function Build(mode: SqlMode, limit: int, done: seq<byte>, query: seq<byte>, args: seq<Arg>): Option<seq<byte>>
    decreases |query|
  {
    var i := FirstPlaceholder(query);
    if i == |query| then Some(done + query)
    else if args == [] || args[0].Unsupported? then None
    else
      var next := done + query[..i] + Rendered(mode, args[0]);
      if !args[0].Nil? && |next| + 4 > limit then None
      else Build(mode, limit, next, query[i + 1..], args[1..])
  }

  /**
    The loop gives the segments of the query with the rendered arguments between them, in order, exactly
    when every argument can be rendered and the text stays within the limit.
   */
  lemma {:induction false} Woven(mode: SqlMode, limit: int, done: seq<byte>, query: seq<byte>, args: seq<Arg>)
    requires CountPlaceholders(query) == |args|
    ensures |Segments(query)| == |args| + 1
    ensures Build(mode, limit, done, query, args) ==
            if Supported(args) && WithinLimit(mode, limit, |done|, Segments(query), args)
            then Some(done + Weave(Segments(query), Texts(mode, args)))
            else None
    decreases |query|
  {
    hide Rendered, CountPlaceholders, FirstPlaceholder;
    SegmentsCount(query);
    var i := FirstPlaceholder(query);
    FirstSplits(query);
    if i < |query| && !args[0].Unsupported? {
      var next := done + query[..i] + Rendered(mode, args[0]);
      var rest := query[i + 1..];
      assert Segments(query)[0] == query[..i] && Segments(query)[1..] == Segments(rest);
      assert Supported(args) <==> Supported(args[1..]) by {
        SupportedTail(args);
      }
      Woven(mode, limit, next, rest, args[1..]);
      if Supported(args) {
        assert Texts(mode, args)[1..] == Texts(mode, args[1..]);
        Regrouped(done, query[..i], Rendered(mode, args[0]), Weave(Segments(rest), Texts(mode, args[1..])));
      }
    }
  }

  lemma Regrouped(a: seq<byte>, b: seq<byte>, c: seq<byte>, d: seq<byte>)
    ensures a + b + c + d == a + (b + c + d)
  {}

  lemma SupportedTail(args: seq<Arg>)
    requires args != [] && !args[0].Unsupported?
    ensures Supported(args) <==> Supported(args[1..])
  {
    assert forall a :: a in args <==> a == args[0] || a in args[1..];
  }

  /** Up to and with the first placeholder. */
  lemma FirstSplits(query: seq<byte>)
    ensures var i := FirstPlaceholder(query);
            if i == |query| then CountPlaceholders(query) == 0
            else CountPlaceholders(query) == 1 + CountPlaceholders(query[i + 1..])
  {
    hide FirstPlaceholder;
    var i := FirstPlaceholder(query);
    CountSkips(query, i);
    if i < |query| {
      assert query[i..][1..] == query[i + 1..];
    }
  }

  // ---------------------------------------------------------------- what the server reads

  /** The value of an argument that is rendered as a string literal. */
  function LiteralOf(a: Arg): Option<seq<byte>> {
    match a
    case StringArg(v) => Some(v)
    case BytesArg(b) => b
    case TimeArg(t) => Some(TimeText(t))
    case _ => None
  }

  /** How far into its rendering the literal is open. */
  function Opening(a: Arg): nat {
    if a.BytesArg? then |BINARY| + 1 else 1
  }

  /** What follows does not begin with a quote: the next segment, or if that is empty the next rendering, and so on. */
  predicate Clear(mode: SqlMode, segments: seq<seq<byte>>, args: seq<Arg>)
    requires |segments| == |args| + 1 && Supported(args)
    decreases |args|
  {
    if segments[0] != [] then segments[0][0] != QUOTE
    else if args == [] then true
    else
      var next := Rendered(mode, args[0]);
      if next != [] then next[0] != QUOTE else Clear(mode, segments[1..], args[1..])
  }

  lemma {:induction false} ClearIs(mode: SqlMode, segments: seq<seq<byte>>, args: seq<Arg>)
    requires |segments| == |args| + 1 && Supported(args)
    ensures var text := Weave(segments, Texts(mode, args));
            Clear(mode, segments, args) <==> text == [] || text[0] != QUOTE
    decreases |args|
  {
    hide Rendered;
    if args != [] {
      var texts := Texts(mode, args);
      assert texts[1..] == Texts(mode, args[1..]);
      var rest := Weave(segments[1..], texts[1..]);
      assert Weave(segments, texts) == segments[0] + texts[0] + rest;
      ClearIs(mode, segments[1..], args[1..]);
      if segments[0] == [] && texts[0] == [] {
        assert segments[0] + texts[0] + rest == rest;
      }
    }
  }

  lemma {:induction false} WeaveSplits(segments: seq<seq<byte>>, texts: seq<seq<byte>>, i: nat)
    requires |segments| == |texts| + 1 && i < |texts|
    ensures Weave(segments, texts) ==
            Weave(segments[..i + 1], texts[..i]) + (texts[i] + Weave(segments[i + 1..], texts[i + 1..]))
  {
    if i == 0 {
      assert Weave(segments[..1], texts[..0]) == segments[0];
      assert segments[0] + texts[0] + Weave(segments[1..], texts[1..])
          == segments[0] + (texts[0] + Weave(segments[1..], texts[1..]));
    } else {
      var s, t := segments[1..], texts[1..];
      WeaveSplits(s, t, i - 1);
      assert segments[..i + 1][1..] == s[..i] && texts[..i][1..] == t[..i - 1];
      assert s[i..] == segments[i + 1..] && t[i..] == texts[i + 1..];
      var tail := t[i - 1] + Weave(s[i..], t[i..]);
      assert segments[0] + texts[0] + (Weave(s[..i], t[..i - 1]) + tail)
          == segments[0] + texts[0] + Weave(s[..i], t[..i - 1]) + tail;
    }
  }

  /**
    The server, reading the text from just after the opening quote of an argument, gets the argument and
    then what is woven behind it.
   */
  predicate ReadsBack(mode: SqlMode, text: seq<byte>, segments: seq<seq<byte>>, args: seq<Arg>, i: nat)
    requires |segments| == |args| + 1 && Supported(args) && i < |args| && LiteralOf(args[i]).Some?
  {
    var texts := Texts(mode, args);
    var start := |Weave(segments[..i + 1], texts[..i])| + Opening(args[i]);
    && start <= |text|
    && Lex(mode, text[start..]) == Some((LiteralOf(args[i]).value, Weave(segments[i + 1..], texts[i + 1..])))
  }

  lemma LiteralRendered(mode: SqlMode, a: Arg, rest: seq<byte>)
    requires !a.Unsupported? && LiteralOf(a).Some?
    ensures Opening(a) <= |Rendered(mode, a)|
    ensures (Rendered(mode, a) + rest)[Opening(a)..] == Escaped(mode, LiteralOf(a).value) + ([QUOTE] + rest)
  {
    hide Quoted;
    var v := LiteralOf(a).value;
    QuotedTail(Escaped(mode, v), rest);
    QuotedIs(mode, v);
    if a.TimeArg? {
      TimeIsPlain(mode, a.time);
    }
    if a.BytesArg? {
      assert BINARY + Quoted(mode, v) + rest == BINARY + (Quoted(mode, v) + rest);
      DropHead(BINARY, Quoted(mode, v) + rest, 1);
    }
  }

  predicate IsPlain(s: seq<byte>) {
    forall i :: 0 <= i < |s| ==> 32 <= s[i] <= 58 && s[i] != DOUBLE_QUOTE && s[i] != QUOTE
  }

  lemma {:induction false} PlainEscaped(mode: SqlMode, s: seq<byte>)
    requires IsPlain(s)
    ensures Escaped(mode, s) == s
  {
    if s != [] {
      PlainEscaped(mode, s[1..]);
      assert EscapeByte(mode, s[0]) == [s[0]];
    }
  }

  lemma PlainJoin(a: seq<byte>, b: seq<byte>)
    requires IsPlain(a) && IsPlain(b)
    ensures IsPlain(a + b)
  {}

  /** Nothing in a time needs escaping. */
  lemma TimeIsPlain(mode: SqlMode, t: Option<Moment>)
    ensures Escaped(mode, TimeText(t)) == TimeText(t)
  {
    if t.Some? {
      DatePlain(t.value);
    }
    PlainEscaped(mode, TimeText(t));
  }

  lemma DigitsPlain(n: nat)
    requires n < 100
    ensures IsPlain(Digits(n))
  {}

  lemma DayPlain(d: Moment)
    ensures IsPlain(Day(d))
  {
    hide Digits, IsPlain;
    DigitsPlain(d.year / 100);
    DigitsPlain(d.year % 100);
    DigitsPlain(d.month);
    DigitsPlain(d.day);
    MarksPlain();
    var a := Digits(d.year / 100) + Digits(d.year % 100);
    PlainJoin(Digits(d.year / 100), Digits(d.year % 100));
    PlainJoin(a, [45]);
    PlainJoin(a + [45], Digits(d.month));
    PlainJoin(a + [45] + Digits(d.month), [45]);
    PlainJoin(a + [45] + Digits(d.month) + [45], Digits(d.day));
  }

  lemma ClockPlain(d: Moment)
    ensures IsPlain(Clock(d)) && IsPlain(Fraction(d.micro))
  {
    hide Digits, IsPlain;
    DigitsPlain(d.hour);
    DigitsPlain(d.minute);
    DigitsPlain(d.second);
    MarksPlain();
    PlainJoin(Digits(d.hour), [58]);
    PlainJoin(Digits(d.hour) + [58], Digits(d.minute));
    PlainJoin(Digits(d.hour) + [58] + Digits(d.minute), [58]);
    PlainJoin(Digits(d.hour) + [58] + Digits(d.minute) + [58], Digits(d.second));
    if d.micro > 0 {
      var a, b, c := Digits(d.micro / 10000), Digits(d.micro / 100 % 100), Digits(d.micro % 100);
      DigitsPlain(d.micro / 10000);
      DigitsPlain(d.micro / 100 % 100);
      DigitsPlain(d.micro % 100);
      PlainJoin([46], a);
      PlainJoin([46] + a, b);
      PlainJoin([46] + a + b, c);
    }
  }

  lemma MarksPlain()
    ensures IsPlain([45]) && IsPlain([58]) && IsPlain([46]) && IsPlain([32]) && IsPlain([])
  {}

  lemma DatePlain(d: Moment)
    ensures IsPlain(TimeText(Some(d)))
  {
    hide Day, Clock, Fraction, IsPlain;
    DayPlain(d);
    ClockPlain(d);
    MarksPlain();
    PlainJoin(Day(d), [32]);
    PlainJoin(Day(d) + [32], Clock(d));
    PlainJoin(Day(d) + [32] + Clock(d), Fraction(d.micro));
  }

  lemma QuotedIs(mode: SqlMode, v: seq<byte>)
    ensures Quoted(mode, v) == [QUOTE] + Escaped(mode, v) + [QUOTE]
  {}

  lemma QuotedTail(e: seq<byte>, rest: seq<byte>)
    ensures ([QUOTE] + e + [QUOTE] + rest)[1..] == e + ([QUOTE] + rest)
  {}

  /** Reading gives the argument back exactly when what follows it is clear. */
  predicate ReadExactly(mode: SqlMode, text: seq<byte>, segments: seq<seq<byte>>, args: seq<Arg>, i: nat)
    requires |segments| == |args| + 1 && Supported(args) && i < |args| && LiteralOf(args[i]).Some?
  {
    && Supported(args[i + 1..])
    && (ReadsBack(mode, text, segments, args, i) <==> Clear(mode, segments[i + 1..], args[i + 1..]))
  }

  /** Every string argument is read back from the text if and only if nothing that begins with a quote follows it. */
  lemma ArgumentReadBack(mode: SqlMode, segments: seq<seq<byte>>, args: seq<Arg>, i: nat)
    requires |segments| == |args| + 1 && Supported(args) && i < |args| && LiteralOf(args[i]).Some?
    ensures ReadExactly(mode, Weave(segments, Texts(mode, args)), segments, args, i)
  {
    hide Weave, Lex, Escaped, Rendered, Clear, LiteralOf, Opening, Texts, Supported;
    var texts := Texts(mode, args);
    TextsSplit(mode, args, i);
    WeaveSplits(segments, texts, i);
    ClearIs(mode, segments[i + 1..], args[i + 1..]);
    var rest := Weave(segments[i + 1..], texts[i + 1..]);
    LiteralRendered(mode, args[i], rest);
    LiteralReadBack(mode, LiteralOf(args[i]).value, rest);
    DropHead(Weave(segments[..i + 1], texts[..i]), texts[i] + rest, Opening(args[i]));
  }

  lemma TextsSplit(mode: SqlMode, args: seq<Arg>, i: nat)
    requires Supported(args) && i < |args|
    ensures !args[i].Unsupported? && Texts(mode, args)[i] == Rendered(mode, args[i])
    ensures Supported(args[i + 1..]) && Texts(mode, args)[i + 1..] == Texts(mode, args[i + 1..])
  {
    hide Rendered;
  }

  lemma DropHead(head: seq<byte>, tail: seq<byte>, n: nat)
    requires n <= |tail|
    ensures (head + tail)[|head| + n..] == tail[n..]
  {}

  // ---------------------------------------------------------------- the method

  datatype Interpolated = Query(text: seq<byte>) | Skip | InvalidConn

  method Append(buf: Slice, s: seq<byte>) returns (r: Slice)
    requires buf.Valid()
    modifies buf.arr
    ensures r.Valid() && (r.arr == buf.arr || fresh(r.arr)) && r.Bytes() == old(buf.Bytes()) + s
  {
    r := ReserveBuffer(buf, |s|);
    for i := 0 to |s|
      invariant r.arr[..buf.len + i] == old(buf.Bytes()) + s[..i]
    {
      r.arr[buf.len + i] := s[i];
      assert r.arr[..buf.len + i + 1] == r.arr[..buf.len + i] + [s[i]];
    }
    assert s[..|s|] == s;
  }

  method AppendQuoted(mode: SqlMode, buf: Slice, v: seq<byte>) returns (r: Slice)
    requires buf.Valid()
    modifies buf.arr
    ensures r.Valid() && (r.arr == buf.arr || fresh(r.arr)) && r.Bytes() == old(buf.Bytes()) + Quoted(mode, v)
  {
    hide Escaped;
    r := Append(buf, [QUOTE]);
    r := Escape(mode, r, v);
    r := Append(r, [QUOTE]);
    Regrouped(old(buf.Bytes()), [QUOTE], Escaped(mode, v), [QUOTE]);
  }

  method AppendTime(buf: Slice, t: Option<Moment>) returns (r: Slice)
    requires buf.Valid()
    modifies buf.arr
    ensures r.Valid() && (r.arr == buf.arr || fresh(r.arr))
    ensures r.Bytes() == old(buf.Bytes()) + ([QUOTE] + TimeText(t) + [QUOTE])
  {
    hide Digits, Day, Clock;
    ghost var before := buf.Bytes();
    if t == None {
      r := Append(buf, Ascii("'0000-00-00'"));
      RenderedTexts(BackslashEscapes, [], []);
      return;
    }
    var d := t.value;
    r := Append(buf, [QUOTE]);
    r := AppendDay(r, d);
    r := Append(r, [32]);
    r := AppendClock(r, d);
    if d.micro != 0 {
      var micro10000, micro100, micro1 := d.micro / 10000, d.micro / 100 % 100, d.micro % 100;
      r := Append(r, [46] + Digits(micro10000) + Digits(micro100) + Digits(micro1));
    }
    r := Append(r, [QUOTE]);
    TimePieces(before, Day(d), Clock(d), Fraction(d.micro));
  }

  method AppendDay(buf: Slice, d: Moment) returns (r: Slice)
    requires buf.Valid()
    modifies buf.arr
    ensures r.Valid() && (r.arr == buf.arr || fresh(r.arr)) && r.Bytes() == old(buf.Bytes()) + Day(d)
  {
    hide Digits;
    var year100, year1 := d.year / 100, d.year % 100;
    r := Append(buf, Digits(year100) + Digits(year1) + [45] + Digits(d.month) + [45] + Digits(d.day));
  }

  method AppendClock(buf: Slice, d: Moment) returns (r: Slice)
    requires buf.Valid()
    modifies buf.arr
    ensures r.Valid() && (r.arr == buf.arr || fresh(r.arr)) && r.Bytes() == old(buf.Bytes()) + Clock(d)
  {
    hide Digits;
    r := Append(buf, Digits(d.hour) + [58] + Digits(d.minute) + [58] + Digits(d.second));
  }

  lemma TimePieces(before: seq<byte>, day: seq<byte>, clock: seq<byte>, fraction: seq<byte>)
    ensures before + [QUOTE] + day + [32] + clock + fraction + [QUOTE]
         == before + ([QUOTE] + (day + [32] + clock + fraction) + [QUOTE])
    ensures before + [QUOTE] + day + [32] + clock + [QUOTE] == before + ([QUOTE] + (day + [32] + clock) + [QUOTE])
    ensures day + [32] + clock + [] == day + [32] + clock
  {}

  method AppendArg(mode: SqlMode, buf: Slice, a: Arg) returns (r: Slice)
    requires buf.Valid() && !a.Unsupported?
    modifies buf.arr
    ensures r.Valid() && (r.arr == buf.arr || fresh(r.arr)) && r.Bytes() == old(buf.Bytes()) + Rendered(mode, a)
  {
    hide Quoted;
    match a {
      case Nil => r := Append(buf, NULL);
      case Formatted(text) => r := Append(buf, text);
      case TimeArg(t) => r := AppendTime(buf, t);
      case Bool(b) => r := Append(buf, if b then [49] else [48]);
      case BytesArg(None) => r := Append(buf, NULL);
      case BytesArg(Some(v)) =>
        r := Append(buf, BINARY);
        r := AppendQuoted(mode, r, v);
        assert old(buf.Bytes()) + BINARY + Quoted(mode, v) == old(buf.Bytes()) + (BINARY + Quoted(mode, v));
      case StringArg(v) => r := AppendQuoted(mode, buf, v);
    }
  }

  method Count(query: seq<byte>) returns (n: nat)
    ensures n == CountPlaceholders(query)
  {
    n := 0;
    for i := 0 to |query|
      invariant n + CountPlaceholders(query[i..]) == CountPlaceholders(query)
    {
      assert query[i..][1..] == query[i + 1..];
      if query[i] == PLACEHOLDER {
        n := n + 1;
      }
    }
  }

  /** One placeholder of the loop. */
  lemma BuildStep(mode: SqlMode, limit: int, done: seq<byte>, query: seq<byte>, args: seq<Arg>, i: nat, k: nat)
    requires i <= |query| && k <= |args| && CountPlaceholders(query[i..]) == |args| - k
    ensures var q := FirstPlaceholder(query[i..]);
            var spec := Build(mode, limit, done, query[i..], args[k..]);
            if i + q == |query| then spec == Some(done + query[i..])
            else
              && k < |args| && CountPlaceholders(query[i + q + 1..]) == |args| - k - 1
              && (args[k].Unsupported? ==> spec == None)
              && (!args[k].Unsupported? ==>
                    var next := done + query[i..i + q] + Rendered(mode, args[k]);
                    spec == if !args[k].Nil? && |next| + 4 > limit then None
                            else Build(mode, limit, next, query[i + q + 1..], args[k + 1..]))
  {
    hide CountPlaceholders, FirstPlaceholder, Rendered;
    var tail := query[i..];
    var q := FirstPlaceholder(tail);
    FirstSplits(tail);
    if q < |tail| {
      Slices(query, i, q);
      assert args[k..][0] == args[k] && args[k..][1..] == args[k + 1..];
    }
  }

  lemma Slices(query: seq<byte>, i: nat, q: nat)
    requires i + q < |query|
    ensures query[i..][..q] == query[i..i + q] && query[i..][q + 1..] == query[i + q + 1..]
  {}

  method Interpolate(mode: SqlMode, limit: int, space: array<byte>, query: seq<byte>, args: seq<Arg>)
    returns (r: Option<seq<byte>>)
    requires CountPlaceholders(query) == |args|
    modifies space
    ensures r == Build(mode, limit, [], query, args)
  {
    hide CountPlaceholders, FirstPlaceholder, Rendered, Build;
    var buf := Slice(space, 0);
    var argPos: nat, i: nat := 0, 0;
    ghost var spec := Build(mode, limit, [], query, args);
    assert query[0..] == query && args[0..] == args;
    while i < |query|
      invariant i <= |query| && argPos <= |args|
      invariant buf.Valid() && (buf.arr == space || fresh(buf.arr))
      invariant CountPlaceholders(query[i..]) == |args| - argPos
      invariant spec == Build(mode, limit, buf.Bytes(), query[i..], args[argPos..])
    {
      var q := FirstPlaceholder(query[i..]);
      BuildStep(mode, limit, buf.Bytes(), query, args, i, argPos);
      if i + q == |query| {
        buf := Append(buf, query[i..]);
        return Some(buf.arr[..buf.len]);
      }
      buf := Append(buf, query[i..i + q]);
      i := i + q;
      var arg := args[argPos];
      argPos := argPos + 1;
      if arg.Unsupported? { return None; }
      buf := AppendArg(mode, buf, arg);
      if !arg.Nil? && buf.len + 4 > limit { return None; }
      i := i + 1;
    }
    assert query[i..] == [];
    BuildEnds(mode, limit, buf.Bytes(), args[argPos..]);
    r := Some(buf.arr[..buf.len]);
  }

  lemma BuildEnds(mode: SqlMode, limit: int, done: seq<byte>, args: seq<Arg>)
    ensures Build(mode, limit, done, [], args) == Some(done)
  {
    assert done + [] == done;
  }

  /** The buffer of the connection must be free; its array takes the text. */
  method InterpolateParams(mode: SqlMode, limit: int, busy: bool, space: array<byte>, query: seq<byte>, args: seq<Arg>)
    returns (r: Interpolated)
    modifies space
    ensures r == InvalidConn <==> busy && CountPlaceholders(query) == |args|
    ensures r.Query? <==>
            && !busy && CountPlaceholders(query) == |args| && Supported(args)
            && |Segments(query)| == |args| + 1 && WithinLimit(mode, limit, 0, Segments(query), args)
    ensures r.Query? ==> r.text == Weave(Segments(query), Texts(mode, args))
    ensures r.Query? ==> forall i :: 0 <= i < |args| && LiteralOf(args[i]).Some? ==>
              ReadExactly(mode, r.text, Segments(query), args, i)
  {
    hide CountPlaceholders, Segments, Rendered, WithinLimit, Weave, Build, Supported, ReadExactly;
    var n := Count(query);
    if n != |args| { return Skip; }
    if busy { return InvalidConn; }
    Woven(mode, limit, [], query, args);
    var text := Interpolate(mode, limit, space, query, args);
    if text == None { return Skip; }
    assert [] + Weave(Segments(query), Texts(mode, args)) == Weave(Segments(query), Texts(mode, args));
    r := Query(text.value);
    forall i | 0 <= i < |args| && LiteralOf(args[i]).Some?
      ensures ReadExactly(mode, r.text, Segments(query), args, i)
    {
      ArgumentReadBack(mode, Segments(query), args, i);
    }
  }
}
