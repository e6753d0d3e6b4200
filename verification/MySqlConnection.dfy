/** The buffer and the connection that read and write MySQL packets. */
module MySqlConnection {
  import opened Wrappers
  import opened Wire
  import opened MySqlPackets

  /** The network: reads return any positive number of the bytes to come, and writes may fail. */
  class Network {
    var incoming: seq<byte>
    var sent: seq<byte>

    constructor (incoming: seq<byte>)
      ensures this.incoming == incoming && sent == []
    {
      this.incoming := incoming;
      sent := [];
    }

    method Read(into: array<byte>, at: nat) returns (n: nat, eof: bool)
      requires at < into.Length
      modifies `incoming, into
      ensures eof <==> old(incoming) == []
      ensures n <= |old(incoming)| && at + n <= into.Length && (!eof ==> n > 0)
      ensures incoming == old(incoming)[n..]
      ensures into[..at + n] == old(into[..at]) + old(incoming)[..n]
    {
      eof := incoming == [];
      if eof { return 0, true; }
      n :| 0 < n <= |incoming| && at + n <= into.Length;
      for i := 0 to n
        invariant incoming == old(incoming)
        invariant into[..at + i] == old(into[..at]) + incoming[..i]
      {
        into[at + i] := incoming[i];
        assert into[..at + i + 1] == into[..at + i] + [incoming[i]];
      }
      incoming := incoming[n..];
    }

    method Write(data: seq<byte>) returns (ok: bool)
      modifies `sent
      ensures ok ==> sent == old(sent) + data
    {
      var n :| 0 <= n <= |data|;
      sent := sent + data[..n];
      ok := n == |data|;
      assert data[..|data|] == data;
    }
  }

  /** A move within one array or between two, to the front. */
  method Move(dest: array<byte>, src: array<byte>, from: nat, n: nat)
    requires from + n <= src.Length && n <= dest.Length
    modifies dest
    ensures dest[..n] == old(src[from..from + n])
  {
    ghost var was := src[from..from + n];
    for i := 0 to n
      invariant forall k :: 0 <= k < i ==> dest[k] == was[k]
      invariant forall k :: from + i <= k < from + n ==> src[k] == was[k - from]
    {
      dest[i] := src[from + i];
    }
  }

  /** Reads until there are at least `need` bytes, or the network ends. */
  method Collect(nc: Network, dest: array<byte>, have: nat, need: nat) returns (ok: bool, n: nat)
    requires have < need <= dest.Length
    modifies nc`incoming, dest
    ensures ok <==> have + |old(nc.incoming)| >= need
    ensures ok ==> need <= n <= dest.Length && dest[..n] + nc.incoming == old(dest[..have] + nc.incoming)
  {
    n := have;
    ghost var stream := dest[..n] + nc.incoming;
    while true
      invariant have <= n < need
      invariant dest[..n] + nc.incoming == stream
      decreases |nc.incoming|
    {
      ghost var before, was := dest[..n], nc.incoming;
      assert |stream| == n + |was|;
      var nn, eof := nc.Read(dest, n);
      if eof { return false, n; }
      assert before + was[..nn] + was[nn..] == before + was;
      n := n + nn;
      if n >= need { return true, n; }
    }
  }

  class Buffer {
    const nc: Network
    var buf: array<byte>
    var idx: nat
    var length: nat
    var dbuf0: array<byte>
    var dbuf1: array<byte>
    var flipcnt: nat

    ghost predicate Valid()
      reads this
    {
      idx + length <= buf.Length && dbuf0 != dbuf1
    }

    /** The array that the next fill goes to, unless it is too small. */
    function Front(): array<byte>
      reads `flipcnt, `dbuf0, `dbuf1
    {
      if flipcnt % 2 == 0 then dbuf0 else dbuf1
    }

    function Background(): array<byte>
      reads `flipcnt, `dbuf0, `dbuf1
    {
      if flipcnt % 2 == 0 then dbuf1 else dbuf0
    }

    ghost function Arrays(): set<object>
      reads this
    {
      {buf, dbuf0, dbuf1}
    }

    ghost function Contents(): seq<byte>
      requires Valid()
      reads this, buf
    {
      buf[idx..idx + length]
    }

    /** What is still to be read, in the buffer or on the network. */
    ghost function Stream(): seq<byte>
      requires Valid()
      reads this, buf, nc
    {
      Contents() + nc.incoming
    }

    constructor (nc: Network)
      ensures Valid() && this.nc == nc && Stream() == nc.incoming && fresh(Arrays()) && buf != Background()
    {
      this.nc := nc;
      buf := new byte[DEFAULT_BUF_SIZE](_ => 0);
      dbuf0 := buf;
      dbuf1 := new byte[0];
      idx, length, flipcnt := 0, 0, 0;
    }

    /** The next fill will go to the other array, so that it spares the one with the bytes that were returned. */
    method Flip()
      requires Valid()
      modifies `flipcnt
      ensures Valid() && Stream() == old(Stream())
      ensures Front() == old(Background()) && Background() == old(Front())
      ensures old(buf != Background()) ==> buf != Front()
    {
      flipcnt := flipcnt + 1;
    }

    /** The array to fill, grown to hold the whole packet and kept unless it is very large. */
    method Target(need: nat) returns (dest: array<byte>)
      requires Valid()
      modifies `dbuf0, `dbuf1
      ensures dest.Length >= need && dbuf0 != dbuf1 && dest != Background() == old(Background())
      ensures dest == old(Front()) || fresh(dest)
      ensures Front() == old(Front()) || fresh(Front())
    {
      dest := if flipcnt % 2 == 0 then dbuf0 else dbuf1;
      if need > dest.Length {
        dest := new byte[(need / DEFAULT_BUF_SIZE + 1) * DEFAULT_BUF_SIZE](_ => 0);
        if dest.Length <= MAX_CACHED_BUF_SIZE {
          if flipcnt % 2 == 0 {
            dbuf0 := dest;
          } else {
            dbuf1 := dest;
          }
        }
      }
    }

    /** What is buffered moves to the front of the array to fill. */
    method Relocate(dest: array<byte>)
      requires Valid() && length <= dest.Length
      modifies `buf, `idx, dest
      ensures Valid() && buf == dest && idx == 0
      ensures dest[..length] == old(Contents())
    {
      Move(dest, buf, idx, length);
      buf := dest;
      idx := 0;
    }

    /** Only the front array is written to. It may be replaced by a larger one. */
    method Fill(need: nat) returns (ok: bool)
      requires Valid() && length < need
      modifies this, Front(), nc`incoming
      ensures ok <==> |old(Stream())| >= need
      ensures ok ==> Valid() && length >= need && Stream() == old(Stream())
      ensures Background() == old(Background()) && (Front() == old(Front()) || fresh(Front()))
      ensures buf != Background() && (buf == old(Front()) || fresh(buf))
    {
      var n := length;
      var dest := Target(need);
      Relocate(dest);
      assert dest[..n] + nc.incoming == old(Stream());
      ok, n := Collect(nc, dest, n, need);
      if ok {
        length := n;
      }
    }

    /** The next bytes: a part of the array, which lasts until that array is filled again. */
    method ReadNext(need: nat) returns (ok: bool, at: nat)
      requires Valid()
      modifies this, Front(), nc`incoming
      ensures ok <==> |old(Stream())| >= need
      ensures ok ==> Valid() && at + need <= buf.Length && buf[at..at + need] == old(Stream())[..need]
      ensures ok ==> Stream() == old(Stream())[need..]
      ensures Background() == old(Background()) && (Front() == old(Front()) || fresh(Front()))
      ensures buf == old(buf) || (buf != Background() && (buf == old(Front()) || fresh(buf)))
    {
      at := 0;
      if length < need {
        ok := Fill(need);
        if !ok { return; }
      }
      at := Take(need);
      ok := true;
    }

    /** The next bytes themselves. */
    method ReadBytes(need: nat) returns (ok: bool, data: seq<byte>)
      requires Valid()
      modifies this, Front(), nc`incoming
      ensures ok <==> |old(Stream())| >= need
      ensures ok ==> Valid() && data == old(Stream())[..need] && Stream() == old(Stream())[need..]
      ensures fresh(Arrays() - old(Arrays()))
    {
      var at;
      ok, at := ReadNext(need);
      data := if ok then buf[at..at + need] else [];
    }

    method Take(need: nat) returns (at: nat)
      requires Valid() && need <= length
      modifies `idx, `length
      ensures Valid() && at + need <= buf.Length && buf[at..at + need] == old(Stream())[..need]
      ensures Stream() == old(Stream())[need..]
    {
      ghost var all := Stream();
      at := idx;
      idx := idx + need;
      length := length - need;
      assert all[..need] == buf[at..idx];
      assert all[need..] == Stream();
    }
  }

  /**
    What flipping is for: bytes that were returned before a flip are still there after any further reads,
    whether these fill an array or not, and whether they succeed or not.
   */
  method ReadFlipRead(b: Buffer, need: nat, more: seq<nat>) returns (ok: bool, held: array<byte>, at: nat)
    requires b.Valid() && b.buf != b.Background()
    modifies b, b.Arrays(), b.nc`incoming
    ensures ok <==> |old(b.Stream())| >= need
    ensures ok ==> at + need <= held.Length && held[at..at + need] == old(b.Stream()[..need])
  {
    ok, at := b.ReadNext(need);
    held := b.buf;
    if !ok { return; }
    b.Flip();
    ghost var bytes := held[..];
    for i := 0 to |more|
      invariant b.Valid() && allocated(held) && held[..] == bytes && held != b.Front()
      invariant b.Front() in old(b.Arrays()) || fresh(b.Front())
    {
      var read, _ := b.ReadNext(more[i]);
      if !read { return; }
    }
  }

  datatype ReadResult = Data(data: seq<byte>) | InvalidConn | PktSync | PktSyncMul

  datatype WriteResult = Written | PktTooLarge | BrokenConn

  /** What the reader reports for each outcome on the stream. */
  function Reported(r: Received): ReadResult {
    match r
    case Packet(data, _, _) => Data(data)
    case Truncated => InvalidConn
    case Malformed => InvalidConn
    case OutOfSync => PktSync
    case OutOfSyncMulti => PktSyncMul
  }

  class Connection {
    const buf: Buffer
    const maxAllowedPacket: int
    var sequence: byte

    constructor (nc: Network, maxAllowedPacket: int)
      ensures buf.Valid() && fresh(buf) && fresh(buf.Arrays()) && buf.nc == nc && buf.Stream() == nc.incoming
      ensures this.maxAllowedPacket == maxAllowedPacket && sequence == 0
    {
      buf := new Buffer(nc);
      this.maxAllowedPacket := maxAllowedPacket;
      sequence := 0;
    }

    method ReadFrame() returns (r: NextFrame)
      requires buf.Valid()
      modifies this, buf, buf.Arrays(), buf.nc`incoming
      ensures fresh(buf.Arrays() - old(buf.Arrays()))
      ensures var spec := FrameOf(old(buf.Stream()), old(sequence));
              if spec.Frame? then
                && r.Frame? && r.data == spec.data && buf.Valid() && buf.Stream() == spec.rest
                && sequence == NextSequence(old(sequence))
              else r == spec
    {
      hide LengthOf;
      ghost var stream := buf.Stream();
      var ok, header := buf.ReadBytes(4);
      if !ok { return TooShort; }
      assert header[3] == stream[3];
      SameLength(stream);
      var pktLen := LengthOf(header);
      if header[3] != sequence {
        if header[3] > sequence { return Ahead; }
        return Behind;
      }
      sequence := NextSequence(sequence);
      if pktLen == 0 {
        assert stream[4..4] == [];
        return Frame([], []);
      }
      var data;
      ok, data := buf.ReadBytes(pktLen);
      if !ok { return TooShort; }
      assert stream[4..][..pktLen] == stream[4..4 + pktLen];
      assert stream[4..][pktLen..] == stream[4 + pktLen..];
      r := Frame(data, []);
    }

    /** However the network cuts the stream, the reader sees the payload that was split into it. */
    method ReadPacket() returns (r: ReadResult)
      requires buf.Valid()
      modifies this, buf, buf.Arrays(), buf.nc`incoming
      ensures var spec := Receive(old(buf.Stream()), old(sequence), None);
              && r == Reported(spec)
              && (spec.Packet? ==> buf.Valid() && buf.Stream() == spec.rest && sequence == spec.sequence)
    {
      hide FrameOf, NextSequence;
      var prev: Option<seq<byte>> := None;
      ghost var spec := Receive(buf.Stream(), sequence, None);
      while true
        invariant buf.Valid() && fresh(buf.Arrays() - old(buf.Arrays()))
        invariant spec == Receive(buf.Stream(), sequence, prev)
        decreases |buf.Stream()|
      {
        var f := ReadFrame();
        match f {
          case TooShort => return InvalidConn;
          case Behind => return PktSync;
          case Ahead => return PktSyncMul;
          case Frame(data, _) =>
            if |data| == 0 && prev == None { return InvalidConn; }
            var before := if prev.Some? then prev.value else [];
            if |data| < MAX_PACKET_SIZE { return Data(before + data); }
            prev := Some(before + data);
        }
      }
    }

    /** One packet: its header over the four bytes before it, then header and body in one write. */
    method WriteFrame(data: array<byte>, at: nat, size: nat) returns (ok: bool)
      requires size <= MAX_PACKET_SIZE && at + 4 + size <= data.Length
      modifies `sequence, data, buf.nc`sent
      ensures data[..at] == old(data[..at]) && data[at + 4..] == old(data[at + 4..])
      ensures ok ==> buf.nc.sent == old(buf.nc.sent) + (Header(size, old(sequence)) + old(data[at + 4..at + 4 + size]))
      ensures ok ==> sequence == NextSequence(old(sequence))
    {
      data[at] := size % 256;
      data[at + 1] := size / 256 % 256;
      data[at + 2] := size / 65536 % 256;
      data[at + 3] := sequence;
      assert data[at..at + 4 + size] == Header(size, sequence) + old(data[at + 4..at + 4 + size]);
      ok := buf.nc.Write(data[at..at + 4 + size]);
      if ok {
        sequence := NextSequence(sequence);
      }
    }

    /** The payload follows four bytes of room for the header, in part of an array. */
    method WritePacket(data: array<byte>, base: nat, len: nat) returns (r: WriteResult)
      requires 4 <= len && base + len <= data.Length
      modifies `sequence, data, buf.nc`sent
      ensures r == PktTooLarge <==> len - 4 > maxAllowedPacket
      ensures r == PktTooLarge ==> buf.nc.sent == old(buf.nc.sent)
      ensures r == Written ==>
        && buf.nc.sent == old(buf.nc.sent) + Frames(old(data[base + 4..base + len]), old(sequence))
        && sequence == SequenceAfter(len - 4, old(sequence))
      ensures data[..base] == old(data[..base]) && data[base + len..] == old(data[base + len..])
    {
      hide Header, NextSequence, SequenceAfter, Frames;
      var pktLen := len - 4;
      if pktLen > maxAllowedPacket { return PktTooLarge; }
      var at := base;
      ghost var payload := data[base + 4..base + len];
      ghost var left := payload;
      ghost var goal := buf.nc.sent + Frames(payload, sequence);
      ghost var final := SequenceAfter(pktLen, sequence);
      while true
        invariant base <= at && pktLen >= 0 && at + 4 + pktLen == base + len
        invariant left == data[at + 4..base + len]
        invariant buf.nc.sent + Frames(left, sequence) == goal && SequenceAfter(pktLen, sequence) == final
        invariant data[..base] == old(data[..base]) && data[base + len..] == old(data[base + len..])
        decreases pktLen
      {
        var size := if pktLen >= MAX_PACKET_SIZE then MAX_PACKET_SIZE else pktLen;
        ghost var was, due, sent := data[..], sequence, buf.nc.sent;
        var ok := WriteFrame(data, at, size);
        Untouched(was, data[..], at, base, base + len);
        if !ok { return BrokenConn; }
        FramesStep(left, due);
        SequenceMoves(pktLen, due);
        if size != MAX_PACKET_SIZE {
          assert left[..size] == left;
          return Written;
        }
        assert sent + (Header(size, due) + left[..size] + Frames(left[size..], sequence))
            == sent + (Header(size, due) + left[..size]) + Frames(left[size..], sequence);
        pktLen := pktLen - size;
        at := at + size;
        left := left[size..];
      }
    }

    /** One command, with its prefix over bytes that the command before it has sent. */
    method WritePiece(data: array<byte>, base: nat, n: nat, statement: int, param: int, ghost left: seq<byte>)
      returns (r: WriteResult)
      requires n <= |left| && base + 4 + DATA_OFFSET + |left| == data.Length
      requires data[base + 4 + DATA_OFFSET..] == left && DATA_OFFSET + n <= maxAllowedPacket
      modifies `sequence, data, buf.nc`sent
      ensures r != PktTooLarge
      ensures data[base + 4 + DATA_OFFSET + n..] == left[n..]
      ensures r == Written ==>
        buf.nc.sent == old(buf.nc.sent) + Frames(Command(statement, param, left[..n]), 0)
    {
      hide Prefix, Frames, SequenceAfter;
      sequence := 0;
      Store(data, base + 4, Prefix(statement, param));
      PayloadHere(data[..], base, n, Prefix(statement, param), left);
      r := WritePacket(data, base, 4 + DATA_OFFSET + n);
    }

    /** The argument goes out in pieces that each fit the largest packet allowed. */
    method WriteCommandLongData(statement: int, param: int, arg: seq<byte>) returns (r: WriteResult)
      requires arg != [] ==> maxAllowedPacket > DATA_OFFSET + 1
      modifies `sequence, buf.nc`sent
      ensures r != PktTooLarge && (arg == [] ==> r == Written && buf.nc.sent == old(buf.nc.sent))
      ensures r == Written ==> sequence == 0
      ensures r == Written && arg != [] ==>
        buf.nc.sent == old(buf.nc.sent) + LongData(statement, param, Pieces(arg, maxAllowedPacket - 1 - DATA_OFFSET))
    {
      hide LongData, Pieces, Frames, Command;
      if |arg| == 0 {
        sequence := 0;
        return Written;
      }
      var maxLen := maxAllowedPacket - 1;
      ghost var room := maxLen - DATA_OFFSET;
      var pktLen := maxLen;
      var data := new byte[4 + DATA_OFFSET + |arg|](_ => 0);
      Store(data, 4 + DATA_OFFSET, arg);
      var base, argLen := 0, |arg|;
      ghost var left := arg;
      ghost var goal := buf.nc.sent + LongData(statement, param, Pieces(arg, room));
      while argLen > 0
        invariant 0 <= argLen == |left| && base >= 0 && base + 4 + DATA_OFFSET + argLen == data.Length
        invariant data[base + 4 + DATA_OFFSET..] == left && fresh(data)
        invariant argLen > 0 ==> pktLen == maxLen
        invariant buf.nc.sent + LongData(statement, param, Pieces(left, room)) == goal
      {
        if DATA_OFFSET + argLen < maxLen {
          pktLen := DATA_OFFSET + argLen;
        }
        var n := pktLen - DATA_OFFSET;
        PieceStep(left, room, statement, param);
        r := WritePiece(data, base, n, statement, param, left);
        if r != Written { return; }
        base := base + n;
        argLen := argLen - n;
        left := left[n..];
      }
      sequence := 0;
      NothingLeft(left, room, statement, param);
      r := Written;
    }
  }

  method Store(data: array<byte>, at: nat, s: seq<byte>)
    requires at + |s| <= data.Length
    modifies data
    ensures data[at..at + |s|] == s
    ensures data[at + |s|..] == old(data[at + |s|..])
  {
    for i := 0 to |s|
      invariant data[at..at + i] == s[..i]
      invariant data[at + |s|..] == old(data[at + |s|..])
    {
      data[at + i] := s[i];
      assert data[at..at + i + 1] == data[at..at + i] + [s[i]];
      assert s[..i + 1] == s[..i] + [s[i]];
    }
    assert s[..|s|] == s;
  }

  /** The bytes of the next command, where the array has them. */
  lemma PayloadHere(data: seq<byte>, base: nat, n: nat, prefix: seq<byte>, left: seq<byte>)
    requires |prefix| == DATA_OFFSET && n <= |left| && base + 4 + DATA_OFFSET + |left| == |data|
    requires data[base + 4..base + 4 + DATA_OFFSET] == prefix && data[base + 4 + DATA_OFFSET..] == left
    ensures data[base + 4..base + 4 + DATA_OFFSET + n] == prefix + left[..n]
    ensures data[base + 4 + DATA_OFFSET + n..] == left[n..]
  {
    var mid := base + 4 + DATA_OFFSET;
    assert data[mid..mid + n] == data[mid..][..n];
    assert data[base + 4..mid + n] == data[base + 4..mid] + data[mid..mid + n];
    assert data[mid + n..] == data[mid..][n..];
  }

  lemma PieceStep(left: seq<byte>, room: nat, statement: int, param: int)
    requires left != [] && room > 0
    ensures var n := if |left| < room then |left| else room;
            LongData(statement, param, Pieces(left, room)) ==
            Frames(Command(statement, param, left[..n]), 0) + LongData(statement, param, Pieces(left[n..], room))
  {
    hide Frames, Command;
    var n := if |left| < room then |left| else room;
    var pieces := Pieces(left, room);
    if |left| <= room {
      assert left[..n] == left && left[n..] == [];
      assert pieces == [left] && pieces[1..] == [];
    } else {
      assert pieces[1..] == Pieces(left[room..], room);
    }
  }

  lemma NothingLeft(left: seq<byte>, room: nat, statement: int, param: int)
    requires left == [] && room > 0
    ensures LongData(statement, param, Pieces(left, room)) == []
  {}

  lemma Untouched(was: seq<byte>, now: seq<byte>, at: nat, base: nat, end: nat)
    requires |was| == |now| && base <= at && at + 4 <= end <= |was|
    requires now[..at] == was[..at] && now[at + 4..] == was[at + 4..]
    ensures now[..base] == was[..base] && now[end..] == was[end..] && now[at + 4..end] == was[at + 4..end]
  {
    assert now[..base] == now[..at][..base] && was[..base] == was[..at][..base];
    assert now[end..] == now[at + 4..][end - at - 4..] && was[end..] == was[at + 4..][end - at - 4..];
    assert now[at + 4..end] == now[at + 4..][..end - at - 4] && was[at + 4..end] == was[at + 4..][..end - at - 4];
  }

  lemma FramesStep(payload: seq<byte>, sequence: byte)
    ensures var n := if |payload| >= MAX_PACKET_SIZE then MAX_PACKET_SIZE else |payload|;
            Frames(payload, sequence) ==
            Header(n, sequence) + payload[..n]
            + if n == MAX_PACKET_SIZE then Frames(payload[n..], NextSequence(sequence)) else []
  {
    hide Header, NextSequence;
    if |payload| < MAX_PACKET_SIZE {
      assert payload[..|payload|] == payload;
    }
  }

  lemma SequenceMoves(n: nat, sequence: byte)
    ensures if n >= MAX_PACKET_SIZE
            then SequenceAfter(n, sequence) == SequenceAfter(n - MAX_PACKET_SIZE, NextSequence(sequence))
            else SequenceAfter(n, sequence) == NextSequence(sequence)
  {
    hide SequenceAfter, NextSequence;
    if n >= MAX_PACKET_SIZE {
      SequenceStep(n, sequence);
    } else {
      SequenceLast(n, sequence);
    }
  }

  lemma SameLength(stream: seq<byte>)
    requires |stream| >= 4
    ensures LengthOf(stream[..4]) == LengthOf(stream)
  {}
}
