/** Receiving the next text from a socket: pings are answered, pongs and frames that are not used are skipped. */
module Receive {
  import opened Results
  import opened Frames
  import opened Connection

  /** The mask and the outcome of one write. */
  datatype Write = Write(m0: byte, m1: byte, m2: byte, m3: byte, ok: bool)

  datatype TextRead = Text(payload: seq<byte>) | CloseFrame | Late | ReadTrouble(why: Trouble) | WriteTrouble

  predicate CanWrite(writes: seq<Write>, at: nat) { at < |writes| && writes[at].ok }

  /** The bytes are the frame, masked with some key. */
  ghost predicate Carries(wire: seq<byte>, f: Frame) {
    Sendable(f) && exists key: seq<byte> :: |key| == 4 && wire == Wire(f, Some(key))
  }

  /** Each write carries its frame. */
  ghost predicate CarryAll(wires: seq<seq<byte>>, fs: seq<Frame>) {
    |wires| == |fs| && forall i {:trigger Carries(wires[i], fs[i])} :: 0 <= i < |fs| ==> Carries(wires[i], fs[i])
  }

  lemma CarriedReadsBack(wire: seq<byte>, f: Frame, rest: seq<byte>)
    requires Carries(wire, f)
    ensures Parse(wire + rest) == Whole(f, |wire|)
  {
    var key: seq<byte> :| |key| == 4 && wire == Wire(f, Some(key));
    WireParses(f, Some(key), rest);
  }

  lemma CarryMore(wires: seq<seq<byte>>, fs: seq<Frame>, more: seq<seq<byte>>, gs: seq<Frame>)
    requires CarryAll(wires, fs) && CarryAll(more, gs)
    ensures CarryAll(wires + more, fs + gs)
  {
    forall i | 0 <= i < |fs + gs| ensures Carries((wires + more)[i], (fs + gs)[i]) {
      if i < |fs| {
        assert Carries(wires[i], fs[i]);
      } else {
        assert Carries(more[i - |fs|], gs[i - |fs|]);
      }
    }
  }

  /** Encodes and writes a frame; when the writes are used up, every further one fails. `wires` is what was written. */
  method SendFrame(writes: seq<Write>, at: nat, opcode: nat, payload: seq<byte>)
    returns (ok: bool, next: nat, wires: seq<seq<byte>>)
    requires opcode < 16 && at <= |writes|
    ensures ok <==> Sendable(Frame(opcode, payload)) && CanWrite(writes, at)
    ensures next == if Sendable(Frame(opcode, payload)) && at < |writes| then at + 1 else at
    ensures CarryAll(wires, if ok then [Frame(opcode, payload)] else [])
  {
    if at == |writes| {
      return false, at, [];
    }
    var w := writes[at];
    var key: seq<byte> := [w.m0, w.m1, w.m2, w.m3];
    var frame := EncodeFrame(opcode, payload, key);
    if frame.Failure? {
      return false, at, [];
    }
    if !w.ok {
      return false, at + 1, [];
    }
    return true, at + 1, [frame.value];
  }

  /** Frames that the client passes over. */
  predicate PassedOver(fs: seq<Frame>) {
    forall i :: 0 <= i < |fs| ==> fs[i].opcode != 1 && fs[i].opcode != 8
  }

  /** How the frames that were read end. */
  predicate EndsAs(r: TextRead, fs: seq<Frame>) {
    match r
    case Text(payload) => fs != [] && fs[|fs| - 1] == Frame(1, payload) && PassedOver(fs[..|fs| - 1])
    case CloseFrame => fs != [] && fs[|fs| - 1].opcode == 8 && PassedOver(fs[..|fs| - 1])
    case WriteTrouble => fs != [] && fs[|fs| - 1].opcode == 9 && PassedOver(fs)
    case _ => PassedOver(fs)
  }

  function AnswerTo(f: Frame): seq<Frame> { if f.opcode == 9 then [Frame(10, f.payload)] else [] }

  /** The pongs that answer the pings among the frames, each with its ping's payload. */
  function Pongs(fs: seq<Frame>): seq<Frame> {
    if fs == [] then [] else AnswerTo(fs[0]) + Pongs(fs[1..])
  }

  lemma {:induction false} PongsConcat(fs: seq<Frame>, gs: seq<Frame>)
    ensures Pongs(fs + gs) == Pongs(fs) + Pongs(gs)
  {
    if fs == [] {
      assert fs + gs == gs;
    } else {
      assert (fs + gs)[1..] == fs[1..] + gs;
      PongsConcat(fs[1..], gs);
    }
  }

  lemma PongsOfOneMore(fs: seq<Frame>, n: nat)
    requires n < |fs|
    ensures Pongs(fs[..n + 1]) == Pongs(fs[..n]) + AnswerTo(fs[n])
  {
    assert fs[..n + 1] == fs[..n] + [fs[n]];
    PongsConcat(fs[..n], [fs[n]]);
    assert Pongs([fs[n]]) == AnswerTo(fs[n]) + Pongs([]);
  }

  /** The payloads of the pings among the frames. */
  function PingsIn(fs: seq<Frame>): seq<seq<byte>> {
    if fs == [] then [] else (if fs[0].opcode == 9 then [fs[0].payload] else []) + PingsIn(fs[1..])
  }

  lemma {:induction false} PongsAre(fs: seq<Frame>)
    ensures |Pongs(fs)| == |PingsIn(fs)|
    ensures forall i :: 0 <= i < |Pongs(fs)| ==> Pongs(fs)[i] == Frame(10, PingsIn(fs)[i])
  {
    if fs != [] { PongsAre(fs[1..]); }
  }

  /** The bytes written are one frame for each ping, in order: a pong with the ping's own payload. */
  ghost predicate EachPingAnswered(wires: seq<seq<byte>>, fs: seq<Frame>) {
    && |wires| == |PingsIn(fs)|
    && forall i :: 0 <= i < |wires| ==> Parse(wires[i]) == Whole(Frame(10, PingsIn(fs)[i]), |wires[i]|)
  }

  lemma AnswersCarryPayloads(wires: seq<seq<byte>>, fs: seq<Frame>)
    requires CarryAll(wires, Pongs(fs))
    ensures EachPingAnswered(wires, fs)
  {
    hide Parse;
    PongsAre(fs);
    forall i | 0 <= i < |wires| ensures Parse(wires[i]) == Whole(Frame(10, PingsIn(fs)[i]), |wires[i]|) {
      assert Carries(wires[i], Pongs(fs)[i]);
      CarriedReadsBack(wires[i], Pongs(fs)[i], []);
      assert wires[i] + [] == wires[i];
    }
  }

  // ---------------------------------------------------------------- what the frames to come lead to

  /** What one frame does to a receive: it ends it or not, and moves the place of the next write. */
  datatype Effect = Effect(end: Option<TextRead>, next: nat)

  function EffectOf(f: Frame, writes: seq<Write>, at: nat): Effect {
    if f.opcode == 1 then Effect(Some(Text(f.payload)), at)
    else if f.opcode == 8 then Effect(Some(CloseFrame), at)
    else if f.opcode != 9 then Effect(None, at)
    else if CanWrite(writes, at) then Effect(None, at + 1)
    else Effect(Some(WriteTrouble), if at < |writes| then at + 1 else at)
  }

  /** The end of a receive, the number of frames it takes and the place of the next write. */
  datatype Turnout = Turnout(r: TextRead, frames: nat, next: nat)

  /** How a receive ends on the frames `rest`; None if they do not decide it. */
  function NextOf(rest: seq<Frame>, writes: seq<Write>, at: nat): (n: Option<Turnout>)
    ensures n.Some? ==> 0 < n.value.frames <= |rest|
  {
    if rest == [] then None
    else
      var e := EffectOf(rest[0], writes, at);
      if e.end.Some? then Some(Turnout(e.end.value, 1, e.next)) else Later(1, NextOf(rest[1..], writes, e.next))
  }

  function Later(n: nat, t: Option<Turnout>): Option<Turnout> {
    if t.None? then None else Some(t.value.(frames := n + t.value.frames))
  }

  /** The next `n` writes succeed. */
  predicate WritesWell(writes: seq<Write>, at: nat, n: nat) {
    at + n <= |writes| && forall i :: at <= i < at + n ==> CanWrite(writes, i)
  }

  /** A receive ends with a text or a close frame exactly if that is the first such frame and every ping before it can
      be answered; then it has taken all frames up to it and written one answer for each of those pings. */
  lemma {:induction false} FirstTextDecides(rest: seq<Frame>, writes: seq<Write>, at: nat, i: nat)
    requires at <= |writes| && i < |rest| && PassedOver(rest[..i]) && !PassedOver([rest[i]])
    ensures WritesWell(writes, at, |Pongs(rest[..i])|) <==>
            NextOf(rest, writes, at) == Some(Turnout(
              if rest[i].opcode == 1 then Text(rest[i].payload) else CloseFrame, i + 1, at + |Pongs(rest[..i])|))
    ensures !WritesWell(writes, at, |Pongs(rest[..i])|) ==>
            NextOf(rest, writes, at).Some? && NextOf(rest, writes, at).value.r == WriteTrouble
  {
    if i > 0 {
      var before := rest[..i];
      assert rest[0] == before[0];
      assert rest[1..][..i - 1] == before[1..];
      if EffectOf(rest[0], writes, at).end.None? {
        FirstTextDecides(rest[1..], writes, EffectOf(rest[0], writes, at).next, i - 1);
      } else {
        assert !WritesWell(writes, at, |Pongs(before)|);
      }
    }
  }

  // ---------------------------------------------------------------- receiving

  /** A write has failed, or none is left. */
  predicate Refused(writes: seq<Write>, next: nat) {
    next >= |writes| || (next > 0 && !writes[next - 1].ok)
  }

  /** The first `n` of the frames `coming` were passed over or answered, and the others decide the end. */
  ghost predicate Underway(coming: seq<Frame>, n: nat, writes: seq<Write>, at: nat, next: nat, wires: seq<seq<byte>>) {
    && n <= |coming| && PassedOver(coming[..n]) && CarryAll(wires, Pongs(coming[..n]))
    && next == at + |wires| <= at + n
    && NextOf(coming, writes, at) == Later(n, NextOf(coming[n..], writes, next))
  }

  /** The frames whose answers were written: the last one was not answered if the write failed. */
  function Answered(r: TextRead, frames: seq<Frame>): seq<Frame>
    requires EndsAs(r, frames)
  {
    if r.WriteTrouble? then frames[..|frames| - 1] else frames
  }

  /** A receive that ends as `r` took the first `n` of the frames `coming` and answered the pings among them, with one
      write each; unless the reads fail or are late, it ended as those frames decide. */
  ghost predicate Concluded(r: TextRead, coming: seq<Frame>, n: nat, writes: seq<Write>, at: nat, next: nat,
                           wires: seq<seq<byte>>) {
    && n <= |coming| && next <= at + n && EndsAs(r, coming[..n])
    && CarryAll(wires, Pongs(Answered(r, coming[..n])))
    && (if r.WriteTrouble? then Refused(writes, next) else next == at + |wires|)
    && (r.Late? || r.ReadTrouble? || NextOf(coming, writes, at) == Some(Turnout(r, n, next)))
  }

  lemma Begins(coming: seq<Frame>, writes: seq<Write>, at: nat)
    ensures Underway(coming, 0, writes, at, at, [])
  {
    var n := NextOf(coming, writes, at);
    assert n.Some? ==> n.value.(frames := 0 + n.value.frames) == n.value;
    assert coming[0..] == coming;
  }

  lemma Unfolds(coming: seq<Frame>, n: nat, writes: seq<Write>, next: nat)
    requires n < |coming|
    ensures var e := EffectOf(coming[n], writes, next);
            NextOf(coming[n..], writes, next)
            == if e.end.Some? then Some(Turnout(e.end.value, 1, e.next))
               else Later(1, NextOf(coming[n + 1..], writes, e.next))
  {
    assert coming[n..][0] == coming[n] && coming[n..][1..] == coming[n + 1..];
  }

  /** One more frame that does not end the receive. */
  lemma GoesOn(coming: seq<Frame>, n: nat, writes: seq<Write>, at: nat, next: nat, wires: seq<seq<byte>>,
               after: nat, more: seq<seq<byte>>)
    requires Underway(coming, n, writes, at, next, wires) && n < |coming|
    requires EffectOf(coming[n], writes, next) == Effect(None, after) && CarryAll(more, AnswerTo(coming[n]))
    ensures Underway(coming, n + 1, writes, at, after, wires + more)
  {
    Unfolds(coming, n, writes, next);
    PongsOfOneMore(coming, n);
    CarryMore(wires, Pongs(coming[..n]), more, AnswerTo(coming[n]));
  }

  /** The frame that ends the receive. */
  lemma EndsWith(r: TextRead, coming: seq<Frame>, n: nat, writes: seq<Write>, at: nat, next: nat,
                 wires: seq<seq<byte>>, after: nat)
    requires Underway(coming, n, writes, at, next, wires) && n < |coming|
    requires EffectOf(coming[n], writes, next) == Effect(Some(r), after) && next <= |writes|
    ensures Concluded(r, coming, n + 1, writes, at, after, wires)
  {
    Unfolds(coming, n, writes, next);
    PongsOfOneMore(coming, n);
    assert coming[..n + 1][..n] == coming[..n];
  }

  /** A receive that is late, or whose read fails, before a frame ends it. */
  lemma StopsShort(r: TextRead, coming: seq<Frame>, n: nat, writes: seq<Write>, at: nat, next: nat,
                   wires: seq<seq<byte>>)
    requires Underway(coming, n, writes, at, next, wires) && (r.Late? || r.ReadTrouble?)
    ensures n <= |coming| && Concluded(r, coming, n, writes, at, next, wires)
    ensures coming[n..] == [] ==> NextOf(coming, writes, at).None?
  {
  }

  lemma UnderwayBounds(coming: seq<Frame>, n: nat, writes: seq<Write>, at: nat, next: nat, wires: seq<seq<byte>>)
    requires Underway(coming, n, writes, at, next, wires)
    ensures n <= |coming|
  {
  }

  /** What the client does with one frame. */
  method Handle(f: Frame, writes: seq<Write>, next: nat)
    returns (end: Option<TextRead>, after: nat, wires: seq<seq<byte>>)
    requires Sendable(f) && next <= |writes|
    ensures after <= |writes| && Effect(end, after) == EffectOf(f, writes, next)
    ensures CarryAll(wires, if end.None? then AnswerTo(f) else [])
  {
    match f.opcode {
      case 1 => return Some(Text(f.payload)), next, [];
      case 8 => return Some(CloseFrame), next, [];
      case 9 =>
        var ok;
        ok, after, wires := SendFrame(writes, next, 10, f.payload);
        return if ok then None else Some(WriteTrouble), after, wires;
      case _ => return None, next, [];
    }
  }

  /** Whether a frame was read, for the end of one turn. */
  predicate ReadFrameBy(end: Option<TextRead>) { end.None? || !(end.value.Late? || end.value.ReadTrouble?) }

  /** A receive on `socket` since it held `coming` and `seen`: `n` frames were taken, and it goes on or ends as `end`
      says, a late one without trouble and a failed one with a cause. */
  ghost predicate Progress(socket: Socket, coming: seq<Frame>, seen: seq<Frame>, intact: bool, flowing: bool, n: nat,
                           writes: seq<Write>, at: nat, next: nat, wires: seq<seq<byte>>, end: Option<TextRead>)
    reads socket
  {
    && socket.Valid() && (flowing ==> socket.Flowing())
    && n <= |coming| && socket.seen == seen + coming[..n]
    && (if end.None? then Underway(coming, n, writes, at, next, wires)
        else Concluded(end.value, coming, n, writes, at, next, wires))
    && (end.None? || !end.value.ReadTrouble? ==> socket.Coming() == coming[n..])
    && (end.None? || end.value.Late? ==> socket.intact == intact)
    && (end == Some(Late) ==> socket.Overdue())
    && (end.Some? && end.value.ReadTrouble? ==> !socket.intact && socket.Explains(end.value.why))
    && (!ReadFrameBy(end) && flowing ==> NextOf(coming, writes, at).None?)
  }

  /** One turn of a receive: the next frame has its effect, unless the read ends without one. */
  method TakeOne(socket: Socket, writes: seq<Write>, next: nat)
    returns (end: Option<TextRead>, after: nat, wires: seq<seq<byte>>)
    requires socket.Valid() && next <= |writes|
    modifies socket
    ensures socket.Valid() && after <= |writes| && (old(socket.Flowing()) ==> socket.Flowing())
    ensures ReadFrameBy(end) ==>
            old(socket.Coming()) != [] && socket.Coming() == old(socket.Coming())[1..]
            && Effect(end, after) == EffectOf(old(socket.Coming())[0], writes, next)
            && CarryAll(wires, if end.None? then AnswerTo(old(socket.Coming())[0]) else [])
            && socket.seen == old(socket.seen) + [old(socket.Coming())[0]]
            && socket.intact == old(socket.intact) && socket.taken > old(socket.taken)
    ensures !ReadFrameBy(end) ==>
            after == next && wires == [] && socket.seen == old(socket.seen)
            && (old(socket.Flowing()) ==> old(socket.Coming()) == [])
    ensures end == Some(Late) ==>
            socket.Coming() == old(socket.Coming()) && socket.Overdue() && socket.intact == old(socket.intact)
    ensures end.Some? && end.value.ReadTrouble? ==> !socket.intact && socket.Explains(end.value.why)
  {
    hide Parse, IsFrames, FramesIn, Gifts;
    var f := socket.ReadFrame();
    match f {
      case NoFrame => return Some(Late), next, [];
      case Trouble(why) => return Some(ReadTrouble(why)), next, [];
      case Got(frame) => end, after, wires := Handle(frame, writes, next);
    }
  }

  /** One turn of a receive that is under way. */
  method TakeMore(socket: Socket, writes: seq<Write>, next: nat, wires: seq<seq<byte>>, ghost coming: seq<Frame>,
                  ghost seen: seq<Frame>, ghost intact: bool, ghost flowing: bool, ghost n: nat, ghost at: nat)
    returns (end: Option<TextRead>, after: nat, more: seq<seq<byte>>, ghost m: nat)
    requires Progress(socket, coming, seen, intact, flowing, n, writes, at, next, wires, None) && next <= |writes|
    modifies socket
    ensures Progress(socket, coming, seen, intact, flowing, m, writes, at, after, more, end)
    ensures after <= |writes| && (end.None? ==> socket.taken > old(socket.taken))
  {
    hide Parse, IsFrames, FramesIn, Gifts, NextOf, Underway, Concluded;
    UnderwayBounds(coming, n, writes, at, next, wires);
    var added;
    end, after, added := TakeOne(socket, writes, next);
    more, m := wires + added, if ReadFrameBy(end) then n + 1 else n;
    assert added == [] ==> more == wires;
    if end.None? {
      GoesOn(coming, n, writes, at, next, wires, after, added);
    } else if ReadFrameBy(end) {
      EndsWith(end.value, coming, n, writes, at, next, wires, after);
    } else {
      StopsShort(end.value, coming, n, writes, at, next, wires);
    }
  }

  /** Reads whole frames up to the next text, close, deadline or error, and answers the pings on the way. A timeout
      leaves no frame half read. */
  method NextText(socket: Socket, writes: seq<Write>, at: nat)
    returns (r: TextRead, next: nat, wires: seq<seq<byte>>, ghost n: nat)
    requires socket.Valid() && at <= |writes|
    modifies socket
    ensures socket.Valid() && next <= |writes| && (old(socket.Flowing()) ==> socket.Flowing())
    ensures Concluded(r, old(socket.Coming()), n, writes, at, next, wires)
    ensures EachPingAnswered(wires, old(socket.Coming())[..if r.WriteTrouble? then n - 1 else n])
    ensures socket.seen == old(socket.seen) + old(socket.Coming())[..n]
    ensures !r.ReadTrouble? ==> socket.Coming() == old(socket.Coming())[n..]
    ensures r.Late? ==> socket.Overdue() && socket.intact == old(socket.intact)
    ensures r.ReadTrouble? ==> !socket.intact && socket.Explains(r.why)
    ensures (r.Late? || r.ReadTrouble?) && old(socket.Flowing()) ==> NextOf(old(socket.Coming()), writes, at).None?
  {
    next, wires, n := at, [], 0;
    ghost var coming, seen, intact, flowing := socket.Coming(), socket.seen, socket.intact, socket.Flowing();
    Begins(coming, writes, at);
    var end: Option<TextRead> := None;
    while end.None?
      invariant Progress(socket, coming, seen, intact, flowing, n, writes, at, next, wires, end) && next <= |writes|
      decreases end.None?, |socket.incoming| - socket.taken
    {
      end, next, wires, n := TakeMore(socket, writes, next, wires, coming, seen, intact, flowing, n, at);
    }
    r := end.value;
    AnswersCarryPayloads(wires, Answered(r, coming[..n]));
    assert r.WriteTrouble? ==> coming[..n][..n - 1] == coming[..n - 1];
  }
}
