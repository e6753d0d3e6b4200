/**
  The MySQL packet layer: packets of up to 2^24 - 1 bytes behind a header of three length bytes and a
  sequence number. Longer payloads are split, with every header written in place over bytes that
  have been sent; the reader puts them together again over a refillable double buffer.
 */
module MySqlPackets {
  import opened Wrappers
  import opened Wire

  const MAX_PACKET_SIZE := 0xff_ffff
  const DEFAULT_BUF_SIZE := 4096
  const MAX_CACHED_BUF_SIZE := 256 * 1024

  // ---------------------------------------------------------------- packets on the wire

  function Header(n: nat, sequence: byte): (h: seq<byte>)
    ensures |h| == 4
  {
    [n % 256, n / 256 % 256, n / 65536 % 256, sequence]
  }

  /** The length in the first three bytes of a header. */
  function LengthOf(h: seq<byte>): (n: nat)
    requires |h| >= 4
    ensures n <= MAX_PACKET_SIZE
  {
    (h[0] as int) + 256 * (h[1] as int) + 65536 * (h[2] as int)
  }

  function NextSequence(sequence: byte): byte {
    (sequence + 1) % 256
  }

  /** The packets that carry a payload. One that fills its last packet is followed by an empty one. */
  function Frames(payload: seq<byte>, sequence: byte): seq<byte> {
    if |payload| >= MAX_PACKET_SIZE then
      Header(MAX_PACKET_SIZE, sequence) + payload[..MAX_PACKET_SIZE]
      + Frames(payload[MAX_PACKET_SIZE..], NextSequence(sequence))
    else Header(|payload|, sequence) + payload
  }

  function SequenceAfter(n: nat, sequence: byte): byte {
    (sequence + n / MAX_PACKET_SIZE + 1) % 256
  }

  datatype NextFrame = Frame(data: seq<byte>, rest: seq<byte>) | TooShort | Behind | Ahead

  /** The next packet of a stream, if it has the sequence number that is due. */
  function FrameOf(stream: seq<byte>, sequence: byte): (r: NextFrame)
    ensures r.Frame? ==> |r.data| <= MAX_PACKET_SIZE && |r.rest| < |stream|
  {
    if |stream| < 4 then TooShort
    else if stream[3] > sequence then Ahead
    else if stream[3] < sequence then Behind
    else
      var n := LengthOf(stream);
      if |stream| < 4 + n then TooShort else Frame(stream[4..4 + n], stream[4 + n..])
  }

  datatype Received =
    | Packet(data: seq<byte>, rest: seq<byte>, sequence: byte)
    | Truncated
    | OutOfSync
    | OutOfSyncMulti
    | Malformed

  /** What a reader makes of a stream, after the payload bytes of earlier packets. */
  function Receive(stream: seq<byte>, sequence: byte, prev: Option<seq<byte>>): Received
    decreases |stream|
  {
    match FrameOf(stream, sequence)
    case TooShort => Truncated
    case Behind => OutOfSync
    case Ahead => OutOfSyncMulti
    case Frame(data, rest) =>
      var next := NextSequence(sequence);
      var before := if prev.Some? then prev.value else [];
      if data == [] && prev.None? then Malformed
      else if |data| < MAX_PACKET_SIZE then Packet(before + data, rest, next)
      else Receive(rest, next, Some(before + data))
  }

  /** The errors of a reader: too few bytes, a packet that comes too early or too late, or an empty first packet. */
  lemma ReceiveFails(stream: seq<byte>, sequence: byte, prev: Option<seq<byte>>)
    ensures |stream| < 4 ==> Receive(stream, sequence, prev) == Truncated
    ensures |stream| >= 4 && stream[3] > sequence ==> Receive(stream, sequence, prev) == OutOfSyncMulti
    ensures |stream| >= 4 && stream[3] < sequence ==> Receive(stream, sequence, prev) == OutOfSync
    ensures |stream| >= 4 && stream[..4] == [0, 0, 0, sequence] && prev.None? ==>
              Receive(stream, sequence, prev) == Malformed
  {
    if |stream| >= 4 && stream[..4] == [0, 0, 0, sequence] {
      assert stream[0] == stream[..4][0] && stream[1] == stream[..4][1] && stream[2] == stream[..4][2];
      assert stream[3] == stream[..4][3];
    }
  }

  lemma HeaderLength(n: nat, sequence: byte)
    requires n <= MAX_PACKET_SIZE
    ensures LengthOf(Header(n, sequence)) == n
  {
    assert n == n % 256 + 256 * (n / 256);
    assert n / 256 == n / 256 % 256 + 256 * (n / 65536);
    assert n / 65536 < 256;
  }

  lemma FrameBack(sequence: byte, data: seq<byte>, rest: seq<byte>)
    requires |data| <= MAX_PACKET_SIZE
    ensures FrameOf(Header(|data|, sequence) + data + rest, sequence) == Frame(data, rest)
  {
    HeaderLength(|data|, sequence);
    var s := Header(|data|, sequence) + data + rest;
    assert s[4..4 + |data|] == data && s[4 + |data|..] == rest;
  }

  lemma FrameReceived(sequence: byte, data: seq<byte>, rest: seq<byte>, prev: Option<seq<byte>>)
    requires |data| <= MAX_PACKET_SIZE
    ensures Receive(Header(|data|, sequence) + data + rest, sequence, prev) ==
            var before := if prev.Some? then prev.value else [];
            if data == [] && prev.None? then Malformed
            else if |data| < MAX_PACKET_SIZE then Packet(before + data, rest, NextSequence(sequence))
            else Receive(rest, NextSequence(sequence), Some(before + data))
  {
    hide FrameOf, Header, NextSequence;
    FrameBack(sequence, data, rest);
  }

  /**
    The reader gets back what was split, and the sequence numbers of both sides agree afterwards. Only
    an empty payload is refused.
   */
  lemma {:induction false} SplitAndReassembled(payload: seq<byte>, sequence: byte, prev: Option<seq<byte>>,
                                               rest: seq<byte>)
    ensures Receive(Frames(payload, sequence) + rest, sequence, prev) ==
            if payload == [] && prev.None? then Malformed
            else Packet((if prev.Some? then prev.value else []) + payload, rest,
                        SequenceAfter(|payload|, sequence))
    decreases |payload|
  {
    hide Header, Receive, SequenceAfter, NextSequence, Frames;
    var before := if prev.Some? then prev.value else [];
    var next := NextSequence(sequence);
    if |payload| >= MAX_PACKET_SIZE {
      var n := MAX_PACKET_SIZE;
      var tail := Frames(payload[n..], next) + rest;
      FramesBig(payload, sequence, rest);
      FrameReceived(sequence, payload[..n], tail, prev);
      SplitAndReassembled(payload[n..], next, Some(before + payload[..n]), rest);
      assert before + payload[..n] + payload[n..] == before + payload;
      SequenceStep(|payload|, sequence);
    } else {
      FramesSmall(payload, sequence);
      FrameReceived(sequence, payload, rest, prev);
      SequenceLast(|payload|, sequence);
    }
  }

  lemma FramesBig(payload: seq<byte>, sequence: byte, rest: seq<byte>)
    requires |payload| >= MAX_PACKET_SIZE
    ensures Frames(payload, sequence) + rest ==
            Header(MAX_PACKET_SIZE, sequence) + payload[..MAX_PACKET_SIZE]
            + (Frames(payload[MAX_PACKET_SIZE..], NextSequence(sequence)) + rest)
  {
    hide Header, NextSequence;
  }

  lemma FramesSmall(payload: seq<byte>, sequence: byte)
    requires |payload| < MAX_PACKET_SIZE
    ensures Frames(payload, sequence) == Header(|payload|, sequence) + payload
  {}

  lemma SequenceStep(n: nat, sequence: byte)
    requires n >= MAX_PACKET_SIZE
    ensures SequenceAfter(n, sequence) == SequenceAfter(n - MAX_PACKET_SIZE, NextSequence(sequence))
  {
    assert n / MAX_PACKET_SIZE == (n - MAX_PACKET_SIZE) / MAX_PACKET_SIZE + 1;
  }

  lemma SequenceLast(n: nat, sequence: byte)
    requires n < MAX_PACKET_SIZE
    ensures SequenceAfter(n, sequence) == NextSequence(sequence)
  {}

  // ---------------------------------------------------------------- long data

  const COM_STMT_SEND_LONG_DATA := 24
  const DATA_OFFSET := 7

  function LittleEndian(v: int, width: nat): (s: seq<byte>)
    ensures |s| == width
    decreases width
  {
    if width == 0 then [] else [v % 256] + LittleEndian(v / 256, width - 1)
  }

  /** The command byte, the statement and the parameter. */
  function Prefix(statement: int, param: int): (c: seq<byte>)
    ensures |c| == DATA_OFFSET
  {
    [COM_STMT_SEND_LONG_DATA] + LittleEndian(statement, 4) + LittleEndian(param, 2)
  }

  function Command(statement: int, param: int, piece: seq<byte>): (c: seq<byte>)
    ensures |c| == DATA_OFFSET + |piece| && c[DATA_OFFSET..] == piece
  {
    Prefix(statement, param) + piece
  }

  /** An argument in pieces of at most `room` bytes. */
  function Pieces(arg: seq<byte>, room: nat): seq<seq<byte>>
    requires room > 0
    decreases |arg|
  {
    if arg == [] then []
    else if |arg| <= room then [arg]
    else [arg[..room]] + Pieces(arg[room..], room)
  }

  function Joined(pieces: seq<seq<byte>>): seq<byte> {
    if pieces == [] then [] else pieces[0] + Joined(pieces[1..])
  }

  lemma {:induction false} PiecesJoin(arg: seq<byte>, room: nat)
    requires room > 0
    ensures Joined(Pieces(arg, room)) == arg
    decreases |arg|
  {
    if |arg| > room {
      PiecesJoin(arg[room..], room);
      assert Pieces(arg, room)[1..] == Pieces(arg[room..], room);
      assert arg == arg[..room] + arg[room..];
    } else if arg != [] {
      assert [arg][1..] == [];
      assert Joined([arg]) == arg + [];
    }
  }

  lemma {:induction false} PiecesFit(arg: seq<byte>, room: nat, i: nat)
    requires room > 0 && i < |Pieces(arg, room)|
    ensures 0 < |Pieces(arg, room)[i]| <= room
    decreases |arg|
  {
    if |arg| > room && i > 0 {
      PiecesFit(arg[room..], room, i - 1);
    }
  }

  /** The packets that carry the pieces, each with its own sequence. */
  function LongData(statement: int, param: int, pieces: seq<seq<byte>>): seq<byte> {
    if pieces == [] then []
    else Frames(Command(statement, param, pieces[0]), 0) + LongData(statement, param, pieces[1..])
  }

  function FromLittleEndian(b: seq<byte>): nat {
    if b == [] then 0 else (b[0] as int) + 256 * FromLittleEndian(b[1..])
  }

  /** The arguments that a server has gathered, by statement and parameter. */
  type Gathered = map<(nat, nat), seq<byte>>

  function Argument(g: Gathered, k: (nat, nat)): seq<byte> {
    if k in g then g[k] else []
  }

  /** What a server does with one packet: the bytes behind the identifiers go to their argument. */
  function Execute(data: seq<byte>, g: Gathered): Option<Gathered> {
    if |data| < DATA_OFFSET || data[0] != COM_STMT_SEND_LONG_DATA then None
    else
      var k := (FromLittleEndian(data[1..5]), FromLittleEndian(data[5..7]));
      Some(g[k := Argument(g, k) + data[DATA_OFFSET..]])
  }

  /** A server reads and executes the next n commands of a stream. */
  function Serve(stream: seq<byte>, n: nat, g: Gathered): Option<(Gathered, seq<byte>)>
    decreases n
  {
    if n == 0 then Some((g, stream))
    else
      match Receive(stream, 0, None)
      case Packet(data, rest, _) =>
        (match Execute(data, g)
         case Some(h) => Serve(rest, n - 1, h)
         case None => None)
      case _ => None
  }

  /** The identifiers as the server reads them: four bytes and two. */
  function Ids(statement: int, param: int): (nat, nat) {
    (statement % 0x1_0000_0000, param % 0x1_0000)
  }

  lemma LittleEndianBack(v: int)
    ensures FromLittleEndian(LittleEndian(v, 2)) == v % 0x1_0000
    ensures FromLittleEndian(LittleEndian(v, 4)) == v % 0x1_0000_0000
  {
    hide LittleEndian, FromLittleEndian;
    var w := v / 256;
    var x := w / 256;
    TwoBytes(v);
    TwoBytes(x);
    LowByte(v, 4);
    LowByte(w, 3);
    var low := v % 256 + 256 * (w % 256 + 256 * (x % 0x1_0000));
    assert v == 0x1_0000_0000 * (x / 0x1_0000) + low;
    Remainder(v, x / 0x1_0000, low);
  }

  lemma Remainder(v: int, q: int, r: int)
    requires v == 0x1_0000_0000 * q + r && 0 <= r < 0x1_0000_0000
    ensures v % 0x1_0000_0000 == r
  {}

  lemma TwoBytes(v: int)
    ensures FromLittleEndian(LittleEndian(v, 2)) == v % 0x1_0000
  {
    LowByte(v, 2);
    LowByte(v / 256, 1);
    assert FromLittleEndian(LittleEndian(v / 256 / 256, 0)) == 0;
  }

  lemma LowByte(v: int, n: nat)
    requires n > 0
    ensures FromLittleEndian(LittleEndian(v, n)) == v % 256 + 256 * FromLittleEndian(LittleEndian(v / 256, n - 1))
  {
    assert LittleEndian(v, n)[1..] == LittleEndian(v / 256, n - 1);
  }

  lemma CommandExecuted(statement: int, param: int, piece: seq<byte>, g: Gathered)
    ensures var k := Ids(statement, param);
            Execute(Command(statement, param, piece), g) == Some(g[k := Argument(g, k) + piece])
  {
    hide LittleEndian, FromLittleEndian;
    LittleEndianBack(statement);
    LittleEndianBack(param);
    var c := Command(statement, param, piece);
    assert c[1..5] == LittleEndian(statement, 4) && c[5..7] == LittleEndian(param, 2);
  }

  function Appended(g: Gathered, k: (nat, nat), bytes: seq<byte>): Gathered {
    g[k := Argument(g, k) + bytes]
  }

  lemma AppendedTwice(g: Gathered, k: (nat, nat), a: seq<byte>, b: seq<byte>)
    ensures Appended(Appended(g, k, a), k, b) == Appended(g, k, a + b)
  {
    assert Argument(g, k) + a + b == Argument(g, k) + (a + b);
  }

  lemma CommandServed(statement: int, param: int, piece: seq<byte>, rest: seq<byte>, n: nat, g: Gathered)
    ensures Serve(Frames(Command(statement, param, piece), 0) + rest, n + 1, g) ==
            Serve(rest, n, Appended(g, Ids(statement, param), piece))
  {
    hide Frames, Receive, Command, Execute, Ids;
    CommandReceived(Command(statement, param, piece), rest);
    CommandExecuted(statement, param, piece, g);
  }

  /** A server that reads the commands appends the pieces, in order, to the argument of these identifiers. */
  lemma {:induction false} LongDataReceived(statement: int, param: int, pieces: seq<seq<byte>>, rest: seq<byte>,
                                            g: Gathered)
    requires pieces != []
    ensures Serve(LongData(statement, param, pieces) + rest, |pieces|, g) ==
            Some((Appended(g, Ids(statement, param), Joined(pieces)), rest))
    decreases |pieces|
  {
    hide Frames, Command, Ids, Serve, Appended;
    var k := Ids(statement, param);
    var c := Frames(Command(statement, param, pieces[0]), 0);
    var tail := LongData(statement, param, pieces[1..]) + rest;
    assert LongData(statement, param, pieces) + rest == c + tail;
    CommandServed(statement, param, pieces[0], tail, |pieces| - 1, g);
    if |pieces| == 1 {
      ServesNothing(statement, param, rest, Appended(g, k, pieces[0]));
      assert pieces[1..] == [] && pieces[0] + [] == pieces[0];
    } else {
      LongDataReceived(statement, param, pieces[1..], rest, Appended(g, k, pieces[0]));
      AppendedTwice(g, k, pieces[0], Joined(pieces[1..]));
    }
  }

  /**
    The server gets the statement, the parameter and the whole argument: it is appended there, and no
    other argument is touched. An empty argument sends nothing.
   */
  lemma ArgumentReceived(statement: int, param: int, arg: seq<byte>, room: nat, rest: seq<byte>, g: Gathered)
    requires room > 0
    ensures var k := Ids(statement, param);
            var pieces := Pieces(arg, room);
            Serve(LongData(statement, param, pieces) + rest, |pieces|, g) ==
            Some((if arg == [] then g else Appended(g, k, arg), rest))
  {
    hide Serve, LongData, Appended, Ids;
    PiecesJoin(arg, room);
    if arg == [] {
      ServesNothing(statement, param, rest, g);
    } else {
      LongDataReceived(statement, param, Pieces(arg, room), rest, g);
    }
  }

  lemma ServesNothing(statement: int, param: int, rest: seq<byte>, g: Gathered)
    ensures Serve(LongData(statement, param, []) + rest, 0, g) == Some((g, rest))
  {
    assert LongData(statement, param, []) + rest == rest;
  }

  lemma CommandReceived(c: seq<byte>, rest: seq<byte>)
    requires c != []
    ensures Receive(Frames(c, 0) + rest, 0, None) == Packet(c, rest, SequenceAfter(|c|, 0))
  {
    hide Frames, Receive, SequenceAfter;
    SplitAndReassembled(c, 0, None, rest);
    assert [] + c == c;
  }
}
