/** Bounded capture of byte streams: the spool file and tail of a task stream, and the scan buffer that finds the
    address of an app-server. A stream is given as the answers of its reader, one a turn. */
module Spool {
  import opened Results

  type byte = bv8

  const U64_MAX: nat := 0xFFFF_FFFF_FFFF_FFFF

  /** The last `n` bytes. */
  function LastOf(s: seq<byte>, n: nat): (t: seq<byte>)
    ensures |t| == Min(n, |s|)
  {
    if |s| <= n then s else s[|s| - n..]
  }

  /** The first `n` bytes. */
  function FirstOf(s: seq<byte>, n: nat): seq<byte> {
    if |s| <= n then s else s[..n]
  }

  /** The one is the end of the bytes, the other their beginning, as far as they go. */
  lemma BothEnds(s: seq<byte>, n: nat)
    ensures LastOf(s, n) == s[|s| - Min(n, |s|)..] && FirstOf(s, n) == s[..Min(n, |s|)]
  {
  }

  lemma DropSome(s: seq<byte>, t: seq<byte>, i: nat, j: nat)
    requires i <= |s| && i + j <= |s| + |t|
    ensures (s[i..] + t)[j..] == (s + t)[i + j..]
  {
    assert s + t == s[..i] + (s[i..] + t);
  }

  /** Keeping the last bytes of what was kept loses nothing. */
  lemma LastOfLast(s: seq<byte>, t: seq<byte>, n: nat)
    ensures LastOf(LastOf(s, n) + t, n) == LastOf(s + t, n)
  {
    if |s| > n {
      DropSome(s, t, |s| - n, |t|);
    }
  }

  // ---------------------------------------------------------------- the spool of a task stream

  datatype Read = Data(bytes: seq<byte>) | WouldBlock | Interrupted | ReadFailed

  /** One turn: whether an abort is seen before the read, the reader's answer (no data is the end of the stream),
      and whether the file takes what is written. */
  datatype Turn = Turn(abort: bool, read: Read, written: bool)

  datatype SpoolEnd = Captured | Aborted | Failed | Unfinished

  /** The turn that ends the capture, if any. */
  predicate IsLast(t: Turn, room: bool) {
    t.abort || t.read.ReadFailed? || (t.read.Data? && (t.read.bytes == [] || (room && !t.written)))
  }

  function After(stream: seq<byte>, t: Turn): seq<byte> {
    if t.read.Data? then stream + t.read.bytes else stream
  }

  /** The data of the first `n` turns. */
  function Received(turns: seq<Turn>, n: nat): seq<byte>
    requires n <= |turns|
  {
    if n == 0 then [] else After(Received(turns, n - 1), turns[n - 1])
  }

  /** Pushes the bytes of one read through the tail, one at a time. */
  method PushTail(before: seq<byte>, bytes: seq<byte>, limit: nat) returns (tail: seq<byte>)
    requires |before| <= limit
    ensures tail == LastOf(before + bytes, limit)
    ensures var all := before + bytes; tail == all[|all| - Min(limit, |all|)..]
  {
    tail := before;
    assert before + bytes[..0] == before;
    for n := 0 to |bytes|
      invariant tail == LastOf(before + bytes[..n], limit)
    {
      ghost var seen := before + bytes[..n];
      assert seen + [bytes[n]] == before + bytes[..n + 1];
      LastOfLast(seen, [bytes[n]], limit);
      if |tail| == limit {
        tail := if tail == [] then [] else tail[1..];
      }
      if limit > 0 {
        tail := tail + [bytes[n]];
      }
    }
    assert bytes[..|bytes|] == bytes;
    BothEnds(before + bytes, limit);
  }

  datatype Capture = Capture(file: seq<byte>, tail: seq<byte>, bytesSeen: nat, truncated: bool)

  /** The capture of a stream that was read to here: the file holds its first `max` bytes and the tail its last
      `limit` bytes, the count saturates, and the mark is set exactly if the stream was longer than the file. */
  predicate IsCapture(c: Capture, stream: seq<byte>, max: nat, limit: nat) {
    && c.file == FirstOf(stream, max)
    && c.tail == LastOf(stream, limit)
    && c.bytesSeen == Min(|stream|, U64_MAX)
    && (c.truncated <==> |stream| > max)
  }

  lemma FirstOfMore(stream: seq<byte>, bytes: seq<byte>, max: nat)
    ensures |stream| >= max ==> FirstOf(stream + bytes, max) == FirstOf(stream, max)
    ensures |stream| < max ==> FirstOf(stream + bytes, max) == FirstOf(stream, max) + FirstOf(bytes, max - |stream|)
  {
    if |stream| >= max { assert (stream + bytes)[..max] == stream[..max]; }
  }

  /** One read of data; `ok` is false when the file refused its part. */
  method TakeChunk(c: Capture, bytes: seq<byte>, written: bool, max: nat, limit: nat, ghost stream: seq<byte>)
    returns (ok: bool, r: Capture)
    requires IsCapture(c, stream, max, limit)
    ensures ok <==> |stream| >= max || written
    ensures ok ==> bytes != [] ==> IsCapture(r, stream + bytes, max, limit)
    ensures !ok ==> r.file == c.file
  {
    var file, truncated, bytesSeen := c.file, c.truncated, Min(c.bytesSeen + |bytes|, U64_MAX);
    var remaining := if max > |file| then max - |file| else 0;
    FirstOfMore(stream, bytes, max);
    if remaining > 0 {
      var writeLen := Min(|bytes|, remaining);
      if !written {
        return false, Capture(file, c.tail, bytesSeen, truncated);
      }
      file := file + bytes[..writeLen];
      if writeLen < |bytes| {
        truncated := true;
      }
    } else {
      truncated := true;
    }
    LastOfLast(stream, bytes, limit);
    var tail := PushTail(c.tail, bytes, limit);
    return true, Capture(file, tail, bytesSeen, truncated);
  }

  /** How a turn on which the stream so far is `stream` ends the capture, if it does. */
  predicate EndsWith(t: Turn, stream: seq<byte>, max: nat, end: SpoolEnd) {
    match end
    case Aborted => t.abort
    case Captured => !t.abort && t.read == Data([])
    case Failed => !t.abort && t.read != Data([]) && IsLast(t, |stream| < max)
    case Unfinished => !IsLast(t, |stream| < max)
  }

  /** What an end leaves: an abort only sets the mark, and a failure leaves the file as it was. */
  predicate Leaves(end: SpoolEnd, c: Capture, stream: seq<byte>, max: nat, limit: nat) {
    match end
    case Aborted => c.truncated && IsCapture(c.(truncated := |stream| > max), stream, max, limit)
    case Failed => c.file == FirstOf(stream, max)
    case _ => IsCapture(c, stream, max, limit)
  }

  method TakeTurn(t: Turn, c: Capture, max: nat, limit: nat, ghost stream: seq<byte>)
    returns (end: SpoolEnd, r: Capture)
    requires IsCapture(c, stream, max, limit)
    ensures EndsWith(t, stream, max, end)
    ensures Leaves(end, r, if end.Unfinished? then After(stream, t) else stream, max, limit)
  {
    if t.abort {
      return Aborted, c.(truncated := true);
    }
    match t.read
    case WouldBlock => return Unfinished, c;
    case Interrupted => return Unfinished, c;
    case ReadFailed => return Failed, c;
    case Data(bytes) =>
      if bytes == [] {
        return Captured, c;
      }
      var ok;
      ok, r := TakeChunk(c, bytes, t.written, max, limit, stream);
      end := if ok then Unfinished else Failed;
  }

  predicate GoesOn(turns: seq<Turn>, i: nat, max: nat)
    requires i < |turns|
  {
    !IsLast(turns[i], |Received(turns, i)| < max)
  }

  /** Whatever the chunks and however the reads are interrupted, a capture that ends well is the capture of the whole
      stream. */
  method SpoolStream(turns: seq<Turn>, max: nat, limit: nat) returns (end: SpoolEnd, used: nat, c: Capture)
    ensures used <= |turns| && (end.Unfinished? <==> used == |turns|)
    ensures used < |turns| ==> EndsWith(turns[used], Received(turns, used), max, end)
    ensures forall i {:trigger GoesOn(turns, i, max)} :: 0 <= i < used ==> GoesOn(turns, i, max)
    ensures Leaves(end, c, Received(turns, used), max, limit)
  {
    end, used, c := Unfinished, 0, Capture([], [], 0, false);
    while used < |turns|
      invariant used <= |turns|
      invariant forall i {:trigger GoesOn(turns, i, max)} :: 0 <= i < used ==> GoesOn(turns, i, max)
      invariant end.Unfinished? && IsCapture(c, Received(turns, used), max, limit)
    {
      end, c := TakeTurn(turns[used], c, max, limit, Received(turns, used));
      if !end.Unfinished? {
        return;
      }
      used := used + 1;
    }
  }

  // ---------------------------------------------------------------- the scan buffer of an app-server

  /** Whatever the buffer held, it ends with the last `limit` bytes of everything. */
  method AppendBounded(before: seq<byte>, bytes: seq<byte>, limit: nat) returns (buffer: seq<byte>)
    ensures buffer == LastOf(before + bytes, limit)
    ensures var all := before + bytes; buffer == all[|all| - Min(limit, |all|)..]
  {
    BothEnds(before + bytes, limit);
    buffer := before;
    if |bytes| >= limit {
      buffer := bytes[|bytes| - limit..];
      assert buffer == (before + bytes)[|before| + |bytes| - limit..];
      return;
    }
    var overflow := if |buffer| + |bytes| > limit then |buffer| + |bytes| - limit else 0;
    if overflow > 0 {
      buffer := buffer[overflow..];
    }
    buffer := buffer + bytes;
  }

  datatype Listen = Bytes(bytes: seq<byte>) | Quiet | Closed

  /** What the listener has read in its first `n` turns. */
  function Heard(turns: seq<Listen>, n: nat): seq<byte>
    requires n <= |turns|
  {
    if n == 0 then []
    else if turns[n - 1].Bytes? then Heard(turns, n - 1) + turns[n - 1].bytes
    else Heard(turns, n - 1)
  }

  predicate Finds(parse: seq<byte> -> Option<string>, turns: seq<Listen>, i: nat, limit: nat)
    requires i < |turns|
  {
    turns[i].Bytes? && parse(LastOf(Heard(turns, i + 1), limit)).Some?
  }

  /** None of the first `n` reads completes an address. */
  predicate FindsNothing(parse: seq<byte> -> Option<string>, turns: seq<Listen>, n: nat, limit: nat)
    requires n <= |turns|
  {
    forall i {:trigger Finds(parse, turns, i, limit)} :: 0 <= i < n ==> !Finds(parse, turns, i, limit)
  }

  /** The `i`-th read is the first that completes an address, and `sent` is that address. */
  predicate FirstFind(parse: seq<byte> -> Option<string>, turns: seq<Listen>, i: nat, limit: nat, sent: Option<string>)
    requires i < |turns|
  {
    && Finds(parse, turns, i, limit) && parse(LastOf(Heard(turns, i + 1), limit)) == sent
    && FindsNothing(parse, turns, i, limit)
  }

  lemma FoundFirst(parse: seq<byte> -> Option<string>, turns: seq<Listen>, i: nat, limit: nat, buffer: seq<byte>)
    requires i < |turns| && turns[i].Bytes? && FindsNothing(parse, turns, i, limit)
    requires buffer == LastOf(Heard(turns, i) + turns[i].bytes, limit) && parse(buffer).Some?
    ensures FirstFind(parse, turns, i, limit, parse(buffer))
  {
    hide LastOf, FindsNothing;
  }

  /** Reads until the stream closes, and reports an address once: the one found in the last `limit` bytes after the
      first read at which there is one. */
  method DrainListener(turns: seq<Listen>, parse: seq<byte> -> Option<string>, limit: nat)
    returns (sent: Option<string>, used: nat)
    ensures used <= |turns| && (used < |turns| ==> turns[used].Closed? || turns[used] == Bytes([]))
    ensures sent.None? ==> FindsNothing(parse, turns, used, limit)
    ensures sent.Some? ==>
            exists i {:trigger FirstFind(parse, turns, i, limit, sent)} ::
              0 <= i < used && FirstFind(parse, turns, i, limit, sent)
  {
    hide LastOf, FirstFind;
    var buffer: seq<byte> := [];
    sent, used := None, 0;
    ghost var found: nat := 0;
    while used < |turns|
      invariant used <= |turns|
      invariant sent.None? ==> buffer == LastOf(Heard(turns, used), limit) && FindsNothing(parse, turns, used, limit)
      invariant sent.Some? ==> found < used && FirstFind(parse, turns, found, limit, sent)
    {
      match turns[used] {
      case Closed => return;
      case Quiet =>
      case Bytes(bytes) =>
        if bytes == [] { return; }
        if sent.None? {
          LastOfLast(Heard(turns, used), bytes, limit);
          buffer := AppendBounded(buffer, bytes, limit);
          var url := parse(buffer);
          if url.Some? {
            FoundFirst(parse, turns, used, limit, buffer);
            sent, found := url, used;
            buffer := [];
          }
        }
      }
      used := used + 1;
    }
  }
}
