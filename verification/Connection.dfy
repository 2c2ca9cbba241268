/** Reading frames from a socket that delivers the peer's bytes in any pieces and at any times. */
module Connection {
  import opened Results
  import opened Frames

  /** What a read is answered: some of the bytes that are asked for (none once the peer has closed), nothing yet, or
      an error. */
  datatype Answer = Gives(n: nat) | WouldBlock | Fails

  /** One turn of the read loop: whether the deadline has passed before the read, and after it. */
  datatype Turn = Turn(expired: bool, answer: Answer, expiredAfter: bool)

  datatype ReadEnd = Filled | TimedOut | Broken(why: Trouble)

  datatype Trouble = Closed | MidFrame | IoError | BadFrame(error: FrameError)

  datatype FrameRead = Got(frame: Frame) | NoFrame | Trouble(why: Trouble)

  /** The turn finds the deadline ahead, and gives something or lets the reader wait on. */
  predicate Prompt(t: Turn) {
    match t.answer
    case Gives(n) => !t.expired && n > 0
    case WouldBlock => !t.expired && !t.expiredAfter
    case Fails => false
  }

  /** How many of the turns from `i` on give something. */
  function Gifts(turns: seq<Turn>, i: nat): nat
    requires i <= |turns|
    decreases |turns| - i
  {
    if i == |turns| then 0 else (if turns[i].answer.Gives? then 1 else 0) + Gifts(turns, i + 1)
  }

  /** `incoming` is all that the peer ever sends; once `turns` are used up, every deadline has passed. `seen` records
      the frames read so far and `intact` that no read has failed yet. */
  class Socket {
    const incoming: seq<byte>
    const turns: seq<Turn>
    var taken: nat
    var turn: nat
    ghost var seen: seq<Frame>
    ghost var intact: bool

    constructor (incoming: seq<byte>, turns: seq<Turn>)
      ensures this.incoming == incoming && this.turns == turns
      ensures Valid() && taken == 0 && turn == 0 && seen == [] && intact
    {
      this.incoming, this.turns := incoming, turns;
      taken, turn, seen, intact := 0, 0, [], true;
    }

    /** As long as no read has failed, exactly the seen frames have been taken: no frame is half read. */
    ghost predicate Valid()
      reads this
    {
      && taken <= |incoming| && turn <= |turns| && |seen| <= taken
      && (intact ==> IsFrames(incoming[..taken], seen))
    }

    /** The socket delivers in time, with any waits between: no deadline passes, no read fails, and there are reads
        enough for what is left, be it one byte at a time. */
    ghost predicate Flowing()
      reads this
    {
      && turn <= |turns| && taken <= |incoming| && Gifts(turns, turn) >= |incoming| - taken
      && forall i :: turn <= i < |turns| ==> Prompt(turns[i])
    }

    /** The frames still to come. */
    ghost function Coming(): seq<Frame>
      reads this
    {
      if taken <= |incoming| then FramesIn(incoming[taken..]) else []
    }

    /** The deadline has passed: before the next turn, or in the one just taken. */
    ghost predicate Overdue()
      reads this
    {
      || turn >= |turns| || turns[turn].expired
      || (turn > 0 && turns[turn - 1].answer.WouldBlock? && turns[turn - 1].expiredAfter)
    }

    /** What the turns must show for a read to fail; a bad frame shows in the bytes. */
    ghost predicate Explains(why: Trouble)
      reads this
    {
      match why
      case MidFrame => Overdue()
      case Closed => 0 < turn <= |turns| && turns[turn - 1].answer.Gives?
                     && (turns[turn - 1].answer.n == 0 || taken == |incoming|)
      case IoError => 0 < turn <= |turns| && turns[turn - 1].answer.Fails?
      case BadFrame(_) => true
    }

    /** Fills the buffer, or stops at the deadline; it reports a timeout only before the first byte. */
    method ReadExactOrTimeout(buffer: array<byte>) returns (end: ReadEnd)
      requires taken <= |incoming| && turn <= |turns|
      modifies this`taken, this`turn, buffer
      ensures old(taken) <= taken <= |incoming| && turn <= |turns|
      ensures end.Filled? ==> taken == old(taken) + buffer.Length && buffer[..] == incoming[old(taken)..taken]
      ensures end.TimedOut? ==> taken == old(taken) && buffer.Length > 0 && Overdue()
      ensures end.Broken? ==> !end.why.BadFrame? && taken < old(taken) + buffer.Length && Explains(end.why)
      ensures old(Flowing()) ==> Flowing() && (buffer.Length <= |incoming| - old(taken) ==> end.Filled?)
    {
      var read: nat := 0;
      while read < buffer.Length
        invariant read <= buffer.Length && taken == old(taken) + read <= |incoming| && turn <= |turns|
        invariant forall k :: 0 <= k < read ==> buffer[k] == incoming[old(taken) + k]
        invariant turn >= old(turn) && (old(Flowing()) ==> Flowing())
        decreases |turns| - turn
      {
        if turn == |turns| || turns[turn].expired {
          return if read == 0 then TimedOut else Broken(MidFrame);
        }
        var t := turns[turn];
        turn := turn + 1;
        match t.answer {
          case Gives(n) =>
            var given := Min(n, Min(buffer.Length - read, |incoming| - taken));
            if given == 0 {
              return Broken(Closed);
            }
            forall k | 0 <= k < given { buffer[read + k] := incoming[taken + k]; }
            read, taken := read + given, taken + given;
          case WouldBlock =>
            if t.expiredAfter {
              return if read == 0 then TimedOut else Broken(MidFrame);
            }
          case Fails => return Broken(IoError);
        }
      }
      end := Filled;
    }

    /** In the middle of a frame, the deadline is an error. */
    method ReadExactRequired(buffer: array<byte>) returns (end: ReadEnd)
      requires taken <= |incoming| && turn <= |turns|
      modifies this`taken, this`turn, buffer
      ensures old(taken) <= taken <= |incoming| && turn <= |turns|
      ensures end.Filled? ==> taken == old(taken) + buffer.Length && buffer[..] == incoming[old(taken)..taken]
      ensures !end.TimedOut?
      ensures end.Broken? ==> !end.why.BadFrame? && Explains(end.why)
      ensures old(Flowing()) ==> Flowing() && (buffer.Length <= |incoming| - old(taken) ==> end.Filled?)
    {
      end := ReadExactOrTimeout(buffer);
      if end.TimedOut? { end := Broken(MidFrame); }
    }

    /** The length that the short length stands for: itself, or the next bytes. */
    method ReadLength(short: nat) returns (end: ReadEnd, length: nat)
      requires short < 128 && taken <= |incoming| && turn <= |turns|
      modifies this`taken, this`turn
      ensures old(taken) <= taken <= |incoming| && turn <= |turns| && !end.TimedOut?
      ensures end.Filled? ==>
              taken == old(taken) + ExtensionSize(short) && length == LengthOf(short, incoming[old(taken)..taken])
      ensures end.Filled? && short < 126 ==> taken == old(taken) && length == short
      ensures end.Filled? && short == 126 ==>
              && taken == old(taken) + 2
              && length == 0x100 * ByteAt(incoming, old(taken)) + ByteAt(incoming, old(taken) + 1)
      ensures end.Filled? && short == 127 ==>
              && taken == old(taken) + 8
              && length == 0x100_0000_0000_0000 * ByteAt(incoming, old(taken))
                           + 0x1_0000_0000_0000 * ByteAt(incoming, old(taken) + 1)
                           + 0x100_0000_0000 * ByteAt(incoming, old(taken) + 2)
                           + 0x1_0000_0000 * ByteAt(incoming, old(taken) + 3)
                           + 0x100_0000 * ByteAt(incoming, old(taken) + 4)
                           + 0x1_0000 * ByteAt(incoming, old(taken) + 5)
                           + 0x100 * ByteAt(incoming, old(taken) + 6) + ByteAt(incoming, old(taken) + 7)
      ensures end.Broken? ==> !end.why.BadFrame? && Explains(end.why)
      ensures old(Flowing()) ==> Flowing() && (ExtensionSize(short) <= |incoming| - old(taken) ==> end.Filled?)
    {
      hide Gifts, Explains, Overdue;
      length := short;
      if short != 126 && short != 127 {
        return Filled, short;
      }
      var extension := new byte[if short == 126 then 2 else 8];
      end := ReadExactRequired(extension);
      if end.Filled? {
        length := FromBigEndian(extension[..]);
        if short == 126 { TwoBytes(extension[..]); } else { EightBytes(extension[..]); }
      }
    }

    /** The header of the next frame up to its key. */
    method ReadHead() returns (end: ReadEnd, h: Header)
      requires taken <= |incoming| && turn <= |turns|
      modifies this`taken, this`turn
      ensures old(taken) <= taken <= |incoming| && turn <= |turns|
      ensures end.Filled? ==> h.Header? && ParseHead(incoming[old(taken)..taken]) == h && h.size == taken - old(taken)
      ensures end.TimedOut? ==> taken == old(taken) && Overdue()
      ensures end.Broken? ==> Explains(end.why)
      ensures end.Broken? && end.why.BadFrame? ==> ParseHead(incoming[old(taken)..taken]) == BadHeader(end.why.error)
      ensures old(Flowing()) ==> Flowing() && (ParseHead(incoming[old(taken)..]).Header? ==> end.Filled?)
    {
      ghost var all := incoming[taken..];
      if ParseHead(all).Header? { HeadNeeds(all); }
      hide Gifts, ParseHead;
      h := NoHeader;
      var header := new byte[2];
      end := ReadExactOrTimeout(header);
      if !end.Filled? {
        return;
      }
      ghost var start := old(taken);
      assert header[0] == incoming[start] == all[0] && header[1] == incoming[start + 1] == all[1];
      if header[0] < 128 {
        HeadOf(incoming[start..taken]);
        return Broken(BadFrame(Fragmented)), h;
      }
      var length;
      end, length := ReadLength(header[1] % 128);
      if !end.Filled? {
        return;
      }
      ghost var p := incoming[start..taken];
      assert p[2..] == incoming[start + 2..taken];
      HeadOf(p);
      if length > MAX_MESSAGE_BYTES {
        HeadSuffix(incoming, start, taken);
        return Broken(BadFrame(TooLong)), h;
      }
      if IsControl(header[0] % 16) && length > 125 {
        HeadSuffix(incoming, start, taken);
        return Broken(BadFrame(ControlTooLong)), h;
      }
      h := Header(header[0] % 16, header[1] >= 128, length, 2 + ExtensionSize(header[1] % 128));
    }

    /** The key, if any, and the payload, unmasked in place. */
    method ReadBody(h: Header) returns (end: ReadEnd, payload: seq<byte>)
      requires h.Header? && taken <= |incoming| && turn <= |turns|
      modifies this`taken, this`turn
      ensures old(taken) <= taken <= |incoming| && turn <= |turns| && !end.TimedOut?
      ensures end.Filled? ==> h.size + taken - old(taken) == FrameSize(h)
      ensures end.Filled? ==> payload == Body(incoming[old(taken)..taken], h.masked)
      ensures end.Broken? ==> !end.why.BadFrame? && Explains(end.why)
      ensures old(Flowing()) ==> Flowing() && (FrameSize(h) - h.size <= |incoming| - old(taken) ==> end.Filled?)
    {
      payload := [];
      ghost var start := taken;
      var mask := new byte[4](_ => 0);
      if h.masked {
        end := ReadExactRequired(mask);
        if !end.Filled? {
          return;
        }
      }
      ghost var bodyAt := taken;
      var bytes := new byte[h.length](_ => 0);
      end := ReadExactRequired(bytes);
      if !end.Filled? {
        return;
      }
      if h.masked {
        assert incoming[start..taken][..4] == mask[..] && incoming[start..taken][4..] == bytes[..];
        UnmaskInPlace(bytes, mask[..]);
      }
      payload := bytes[..];
    }

    /** The header and the body of the next frame, put together. */
    method ReadWhole() returns (end: ReadEnd, frame: Frame)
      requires taken <= |incoming| && turn <= |turns|
      modifies this`taken, this`turn
      ensures old(taken) <= taken <= |incoming| && turn <= |turns|
      ensures end.Filled? ==> Parse(incoming[old(taken)..taken]) == Whole(frame, taken - old(taken)) && Sendable(frame)
      ensures end.TimedOut? ==> taken == old(taken) && Overdue()
      ensures end.Broken? ==> Explains(end.why)
      ensures end.Broken? && end.why.BadFrame? ==> Parse(incoming[old(taken)..]) == Malformed(end.why.error)
      ensures old(Flowing()) ==> Flowing() && (Parse(incoming[old(taken)..]).Whole? ==> end.Filled?)
    {
      frame := Frame(0, []);
      ghost var start := taken;
      var h;
      end, h := ReadHead();
      if !end.Filled? {
        if end.Broken? && end.why.BadFrame? { HeadSuffix(incoming, start, taken); }
        return;
      }
      ghost var headEnd := taken;
      HeadSuffix(incoming, start, headEnd);
      var payload;
      end, payload := ReadBody(h);
      if end.Filled? {
        frame := Frame(h.opcode, payload);
        HeadAccepts(incoming[start..headEnd]);
        FrameFromParts(incoming, start, headEnd, taken, h, payload);
      }
    }

    /** Reads the next frame. A timeout leaves the stream where it was; a frame is read as the standard defines it, and
        nothing fails or times out without cause. */
    method ReadFrame() returns (r: FrameRead)
      requires Valid()
      modifies this
      ensures Valid() && old(taken) <= taken
      ensures r.Got? ==> Parse(incoming[old(taken)..taken]) == Whole(r.frame, taken - old(taken)) && Sendable(r.frame)
      ensures r.Got? ==> taken > old(taken) && seen == old(seen) + [r.frame] && intact == old(intact)
      ensures r.Got? ==> old(Coming()) != [] && r.frame == old(Coming())[0] && Coming() == old(Coming())[1..]
      ensures r.NoFrame? ==> taken == old(taken) && seen == old(seen) && intact == old(intact) && Overdue()
      ensures r.Trouble? ==> !intact && seen == old(seen) && Explains(r.why)
      ensures r.Trouble? && r.why.BadFrame? ==> Parse(incoming[old(taken)..]) == Malformed(r.why.error)
      ensures old(Flowing()) ==> Flowing() && (old(Coming()) != [] ==> r.Got?)
    {
      ghost var start := taken;
      var end, frame := ReadWhole();
      if end.TimedOut? {
        return NoFrame;
      }
      if end.Broken? {
        intact := false;
        return Trouble(end.why);
      }
      WholeTakesBytes(incoming[start..taken]);
      FirstOfComing(incoming, start, taken);
      if intact { SeenGrows(incoming, start, taken, seen); }
      seen := seen + [frame];
      return Got(frame);
    }
  }

  method UnmaskInPlace(bytes: array<byte>, mask: seq<byte>)
    requires |mask| == 4
    modifies bytes
    ensures bytes[..] == Masked(old(bytes[..]), mask)
  {
    ghost var body := bytes[..];
    for idx := 0 to bytes.Length
      invariant forall k :: 0 <= k < idx ==> bytes[k] == Xor(body[k], mask[k % 4])
      invariant forall k :: idx <= k < bytes.Length ==> bytes[k] == body[k]
    {
      bytes[idx] := Xor(bytes[idx], mask[idx % 4]);
    }
    assert bytes[..] == Masked(body, mask);
  }

  lemma FirstOfComing(s: seq<byte>, start: nat, end: nat)
    requires start < end <= |s| && Parse(s[start..end]).Whole? && Parse(s[start..end]).size == end - start
    ensures FramesIn(s[start..]) == [Parse(s[start..end]).frame] + FramesIn(s[end..])
  {
    assert s[start..] == s[start..end] + s[end..];
    FirstFrame(s[start..end], s[end..]);
    assert s[start..][end - start..] == s[end..];
  }

  /** The header that a whole head reads as. */
  lemma HeadOf(p: seq<byte>)
    requires |p| >= 2 && (p[0] >= 128 ==> |p| == 2 + ExtensionSize(p[1] % 128))
    ensures p[0] < 128 ==> ParseHead(p) == BadHeader(Fragmented)
    ensures p[0] >= 128 ==>
            var length := LengthOf(p[1] % 128, p[2..]);
            ParseHead(p) == if length > MAX_MESSAGE_BYTES then BadHeader(TooLong)
                            else if IsControl(p[0] % 16) && length > 125 then BadHeader(ControlTooLong)
                            else Header(p[0] % 16, p[1] >= 128, length, 2 + ExtensionSize(p[1] % 128))
  {
    assert p[2..|p|] == p[2..];
  }

  lemma HeadNeeds(s: seq<byte>)
    requires ParseHead(s).Header?
    ensures |s| >= 2 && s[0] >= 128 && |s| >= 2 + ExtensionSize(s[1] % 128)
  {
  }

  lemma HeadAccepts(s: seq<byte>)
    requires ParseHead(s).Header?
    ensures var h := ParseHead(s);
            FrameSize(h) > 0 && h.opcode < 16 && h.length <= MAX_MESSAGE_BYTES
            && (IsControl(h.opcode) ==> h.length <= 125)
  {
  }

  /** Enough of a stream to read its header tells the header of all of it. */
  lemma HeadSuffix(s: seq<byte>, start: nat, end: nat)
    requires start <= end <= |s| && !ParseHead(s[start..end]).NoHeader?
    ensures ParseHead(s[start..]) == ParseHead(s[start..end])
  {
    var p, rest := s[start..end], s[end..];
    assert s[start..] == p + rest;
    if p[0] >= 128 { PrefixSlice(p, rest, 2, 2 + ExtensionSize(p[1] % 128)); }
  }

  lemma FrameFromParts(s: seq<byte>, start: nat, headEnd: nat, end: nat, h: Header, payload: seq<byte>)
    requires start <= headEnd <= end <= |s|
    requires h.Header? && ParseHead(s[start..headEnd]) == h && h.size == headEnd - start
    requires end - start == FrameSize(h) && payload == Body(s[headEnd..end], h.masked)
    ensures Parse(s[start..end]) == Whole(Frame(h.opcode, payload), end - start)
  {
    var head, body := s[start..headEnd], s[headEnd..end];
    assert s[start..end] == head + body;
    HeadLocal(head, body);
    assert (head + body)[h.size..FrameSize(h)] == body;
  }

  lemma SeenGrows(s: seq<byte>, start: nat, end: nat, seen: seq<Frame>)
    requires start <= end <= |s| && IsFrames(s[..start], seen)
    requires Parse(s[start..end]).Whole? && Parse(s[start..end]).size == end - start
    ensures IsFrames(s[..end], seen + [Parse(s[start..end]).frame])
  {
    var before, t := s[..start], s[start..end];
    assert s[..end] == before + t;
    FramesAppend(before, seen, t);
  }

  /** Whatever the pieces and the times, the frames read so far are the first of those that the peer sent. */
  lemma ReadsWhatWasSent(incoming: seq<byte>, taken: nat, seen: seq<Frame>, items: seq<Item>)
    requires (forall i :: 0 <= i < |items| ==> Good(items[i])) && incoming == Stream(items)
    requires taken <= |incoming| && IsFrames(incoming[..taken], seen)
    ensures seen <= FramesOf(items)
  {
    StreamReadsBack(items);
    assert incoming == incoming[..taken] + incoming[taken..];
    FramesPrefix(incoming[..taken], seen, incoming[taken..], FramesOf(items));
  }

  /** The socket is delivering, and `rest` is still to come. */
  ghost predicate Delivering(socket: Socket, rest: seq<Frame>)
    reads socket
  {
    socket.Valid() && socket.intact && socket.Flowing() && IsFrames(socket.incoming[socket.taken..], rest)
  }

  method ReadOne(socket: Socket, ghost rest: seq<Frame>) returns (frame: Frame)
    requires Delivering(socket, rest) && socket.taken < |socket.incoming|
    modifies socket
    ensures rest != [] && frame == rest[0] && Delivering(socket, rest[1..])
    ensures old(socket.taken) < socket.taken <= |socket.incoming|
  {
    ghost var start := socket.taken;
    var r := socket.ReadFrame();
    NextOfStream(socket.incoming, start, socket.taken, rest);
    frame := r.frame;
  }

  lemma NothingLeft(socket: Socket, rest: seq<Frame>)
    requires Delivering(socket, rest) && socket.taken >= |socket.incoming|
    ensures rest == []
  {
  }

  /** Reads everything that the peer sent, in whatever pieces it comes. */
  method ReadAll(socket: Socket, ghost items: seq<Item>) returns (frames: seq<Frame>)
    requires (forall i :: 0 <= i < |items| ==> Good(items[i])) && socket.incoming == Stream(items)
    requires socket.Valid() && socket.intact && socket.taken == 0 && socket.Flowing()
    modifies socket
    ensures frames == FramesOf(items)
  {
    StreamReadsBack(items);
    assert socket.incoming[0..] == socket.incoming;
    frames := ReadRest(socket, FramesOf(items));
  }

  lemma MoveOne(done: seq<Frame>, rest: seq<Frame>)
    requires rest != []
    ensures (done + [rest[0]]) + rest[1..] == done + rest
  {
  }

  method ReadRest(socket: Socket, ghost all: seq<Frame>) returns (frames: seq<Frame>)
    requires Delivering(socket, all)
    modifies socket
    ensures frames == all
  {
    frames := [];
    ghost var rest := all;
    while socket.taken < |socket.incoming|
      invariant Delivering(socket, rest) && frames + rest == all
      decreases |socket.incoming| - socket.taken
    {
      var frame := ReadOne(socket, rest);
      MoveOne(frames, rest);
      frames, rest := frames + [frame], rest[1..];
    }
    NothingLeft(socket, rest);
  }

  lemma NextOfStream(s: seq<byte>, start: nat, end: nat, fs: seq<Frame>)
    requires start < end <= |s| && IsFrames(s[start..], fs)
    requires Parse(s[start..end]).Whole? && Parse(s[start..end]).size == end - start
    ensures fs != [] && Parse(s[start..end]).frame == fs[0] && IsFrames(s[end..], fs[1..])
  {
    hide Parse;
    assert s[start..] == s[start..end] + s[end..];
    FirstFrame(s[start..end], s[end..]);
    assert s[start..][end - start..] == s[end..];
  }
}
