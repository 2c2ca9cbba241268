/** The JSON-RPC client: request numbers, and the queue of messages that arrived while a response was awaited. */
module Client {
  import opened Results
  import opened Frames
  import opened Connection
  import opened Receive
  import opened Waits

  const U64_MAX: nat := 0xFFFF_FFFF_FFFF_FFFF

  /** `arrivals` counts the decodable messages read from the socket and `outgoing` holds what was written, write by
      write; `handed` records the messages given to callers and `usedIds` the numbers of the requests. */
  class JsonRpcClient {
    const socket: Socket
    const decode: Decoder
    const writes: seq<Write>
    var written: nat
    var nextId: nat
    var pending: seq<Message>
    var arrivals: nat
    var outgoing: seq<seq<byte>>
    ghost var handed: seq<Message>
    ghost var usedIds: seq<nat>

    constructor (socket: Socket, decode: Decoder, writes: seq<Write>)
      requires socket.Valid() && socket.seen == []
      ensures this.socket == socket && this.decode == decode && this.writes == writes
      ensures Valid() && IdsIncrease() && nextId == 1 && usedIds == [] && written == 0 && outgoing == []
      ensures pending == [] && handed == [] && arrivals == 0
    {
      this.socket, this.decode, this.writes := socket, decode, writes;
      written, nextId, pending, arrivals, outgoing, handed, usedIds := 0, 1, [], 0, [], [], [];
    }

    ghost function Messages(): seq<Message>
      reads socket
    {
      Arrived(decode, socket.seen)
    }

    /** Every message that arrived was handed out or is queued, exactly once; every write was for a frame that was read
        or for a request. */
    ghost predicate Valid()
      reads this, socket
    {
      && socket.Valid() && written <= |writes| && nextId <= U64_MAX && arrivals == |Messages()|
      && multiset(Messages()) == multiset(handed) + multiset(pending) && written <= |socket.seen| + |usedIds|
    }

    /** Every request number is above all earlier ones. */
    ghost predicate IdsIncrease()
      reads this`nextId, this`usedIds
    {
      && (forall i :: 0 <= i < |usedIds| ==> usedIds[i] < nextId)
      && (forall i, j :: 0 <= i < j < |usedIds| ==> usedIds[i] < usedIds[j])
    }

    /** What the socket is to deliver, if the next write is the one at `at` and the next message gets `place`. */
    ghost function ArrivingAt(at: nat, place: nat): seq<Reception>
      reads socket
    {
      Upcoming(decode, socket.Coming(), writes, at, place)
    }

    /** What the client is to receive, if the next write is the one at `at`: the queue, and then what the socket
        delivers. */
    ghost function InboxAt(at: nat): seq<Reception>
      reads this, socket
    {
      Queued(pending) + ArrivingAt(at, arrivals)
    }

    ghost function Inbox(): seq<Reception>
      reads this, socket
    {
      InboxAt(written)
    }

    /** What must have happened, since `seen` frames had been read, for a receive to end as it did, if the next write is
        the one at `at`. */
    ghost predicate Causes(r: Reception, seen: nat, at: nat)
      reads socket
    {
      && Evident(decode, socket.seen, seen, r)
      && match r
         case Timeout => socket.Overdue()
         case ReceiveError(BadRead(trouble)) => !socket.intact && socket.Explains(trouble)
         case ReceiveError(BadWrite) => Refused(writes, at)
         case _ => true
    }

    /** The same for the result of a wait; `over` says that its own clock ended it. */
    ghost predicate Caused(result: Reply, seen: nat, at: nat, over: bool)
      reads socket
    {
      match result
      case Failure(TimedOutWaiting) => over || Causes(Timeout, seen, at)
      case Failure(ConnectionClosed) => Causes(ClosedByPeer, seen, at)
      case Failure(Protocol) => exists why :: Causes(ReceiveError(why), seen, at)
      case _ => true
    }

    /** Takes the next number; the last one is never used. */
    method TakeId() returns (id: Option<nat>)
      requires nextId <= U64_MAX && IdsIncrease()
      modifies this`nextId, this`usedIds
      ensures nextId <= U64_MAX && IdsIncrease()
      ensures if old(nextId) == U64_MAX then id.None? && nextId == old(nextId) && usedIds == old(usedIds)
              else id == Some(old(nextId)) && nextId == old(nextId) + 1 && usedIds == old(usedIds) + [old(nextId)]
    {
      if nextId + 1 > U64_MAX {
        return None;
      }
      id := Some(nextId);
      usedIds, nextId := usedIds + [nextId], nextId + 1;
    }

    method PopPending() returns (m: Message)
      requires Valid() && pending != []
      modifies this`handed, this`pending
      ensures Valid() && m == old(pending)[0] && pending == old(pending)[1..] && handed == old(handed) + [m]
    {
      m := pending[0];
      assert pending == [m] + pending[1..];
      pending, handed := pending[1..], handed + [m];
    }

    /** The next text, close frame, deadline or error from the socket. */
    method FetchText() returns (got: TextRead, ghost n: nat, ghost wires: seq<seq<byte>>)
      requires socket.Valid() && written <= |writes|
      modifies this`written, this`outgoing, socket
      ensures socket.Valid() && written <= |writes| && outgoing == old(outgoing) + wires
      ensures Concluded(got, old(socket.Coming()), n, writes, old(written), written, wires)
      ensures socket.seen == old(socket.seen) + old(socket.Coming())[..n] && n <= |old(socket.Coming())|
      ensures !got.ReadTrouble? ==> socket.Coming() == old(socket.Coming())[n..]
      ensures got.Late? ==> socket.Overdue() && socket.intact == old(socket.intact)
      ensures got.ReadTrouble? ==> !socket.intact && socket.Explains(got.why)
      ensures old(socket.Flowing()) ==> socket.Flowing()
      ensures (got.Late? || got.ReadTrouble?) && old(socket.Flowing()) ==>
              NextOf(old(socket.Coming()), writes, old(written)).None?
    {
      var next, sent;
      got, next, sent, n := NextText(socket, writes, written);
      wires, written, outgoing := sent, next, outgoing + sent;
    }

    /** The next reception from the socket, before it is counted. */
    method Fetch() returns (r: Reception)
      requires socket.Valid() && written <= |writes| && arrivals == |Messages()|
      modifies this`written, this`outgoing, socket
      ensures socket.Valid() && written <= |writes| && OnlyPongs(old(outgoing), outgoing)
      ensures written - old(written) <= |socket.seen| - |old(socket.seen)|
      ensures Messages() == old(Messages()) + Listed(MessageIn(r))
      ensures old(socket.Flowing()) ==> socket.Flowing()
      ensures old(socket.Flowing()) ==>
              FirstOf(old(ArrivingAt(written, arrivals)), r, ArrivingAt(written, arrivals + |Listed(MessageIn(r))|))
      ensures |socket.seen| >= |old(socket.seen)| && Causes(r, |old(socket.seen)|, written)
      ensures r.Timeout? ==> socket.intact == old(socket.intact)
    {
      hide Parse, IsFrames, FramesIn, Gifts, NextOf, Upcoming, Arrived, Carries;
      hide Concluded, OnlyPongs, Evident, Refused, FirstOf;
      ghost var seen, coming, at, sent := socket.seen, socket.Coming(), written, outgoing;
      var got;
      ghost var n, wires;
      got, n, wires := FetchText();
      r := ReceptionOf(decode, got, arrivals);
      ReceptionShows(decode, seen, coming, writes, at, got, n, written, wires);
      ConcludedPongs(sent, coming, writes, at, got, n, written, wires);
      if old(socket.Flowing()) {
        UpcomingMoves(decode, coming, writes, at, arrivals, got, n, written, wires, socket.Coming());
      }
    }

    /** Counts a message that was just read, and records that it is handed out. */
    method Count(r: Reception, ghost before: seq<Message>)
      requires socket.Valid() && written <= |writes| && nextId <= U64_MAX && written <= |socket.seen| + |usedIds|
      requires Messages() == before + Listed(MessageIn(r)) && arrivals == |before|
      requires multiset(before) == multiset(handed) + multiset(pending)
      modifies this`arrivals, this`handed
      ensures Valid() && handed == old(handed) + Listed(MessageIn(r))
      ensures arrivals == old(arrivals) + |Listed(MessageIn(r))|
    {
      HandedAsArrived(before, handed, pending, Listed(MessageIn(r)));
      handed := handed + Listed(MessageIn(r));
      if r.Received? {
        arrivals := arrivals + 1;
      }
    }

    /** The next reception from the socket. */
    method ReadMessage() returns (r: Reception)
      requires Valid() && pending == []
      modifies this`written, this`arrivals, this`handed, this`outgoing, socket
      ensures Valid() && OnlyPongs(old(outgoing), outgoing)
      ensures old(socket.Flowing()) ==> socket.Flowing()
      ensures old(socket.Flowing()) ==>
              FirstOf(old(ArrivingAt(written, arrivals)), r, ArrivingAt(written, arrivals))
      ensures Messages() == old(Messages()) + Listed(MessageIn(r)) && handed == old(handed) + Listed(MessageIn(r))
      ensures |socket.seen| >= |old(socket.seen)| && Causes(r, |old(socket.seen)|, written)
      ensures r.Timeout? ==> socket.intact == old(socket.intact)
    {
      hide Parse, IsFrames, FramesIn, Gifts, NextOf, Upcoming, Arrived, Carries;
      ghost var before := Messages();
      r := Fetch();
      Count(r, before);
    }

    /** The next message: the oldest of the queue, or else the next one from the socket. A timeout leaves no frame half
        read. */
    method Recv() returns (r: Reception)
      requires Valid()
      modifies this`written, this`arrivals, this`handed, this`outgoing, this`pending, socket
      ensures Valid() && OnlyPongs(old(outgoing), outgoing)
      ensures old(socket.Flowing()) ==> socket.Flowing() && FirstOf(old(Inbox()), r, Inbox())
      ensures if old(pending) != []
              then r == Received(old(pending)[0]) && pending == old(pending)[1..] && Messages() == old(Messages())
              else pending == [] && Messages() == old(Messages()) + Listed(MessageIn(r))
      ensures handed == old(handed) + Listed(MessageIn(r))
      ensures |socket.seen| >= |old(socket.seen)| && Causes(r, |old(socket.seen)|, written)
      ensures r.Timeout? ==> socket.intact == old(socket.intact)
    {
      hide Parse, IsFrames, FramesIn, Gifts, NextOf, Upcoming, Arrived, Carries;
      if pending != [] {
        QueuedHead(pending, ArrivingAt(written, arrivals));
        var m := PopPending();
        r := Received(m);
      } else {
        r := ReadMessage();
        assert Queued([]) == [];
      }
    }

    /** A wait that began with `w` took the messages `taken`, the first `k` of them from the queue. */
    ghost predicate Took(w: Wait, taken: seq<Message>, k: nat)
      reads this, socket
    {
      && Valid() && TookInOrder(w.queue, w.before, pending, Messages(), taken, k)
      && handed == w.handed + taken && OnlyPongs(w.outgoing, outgoing) && (w.flowing ==> socket.Flowing())
      && w.seen <= |socket.seen|
    }

    lemma TookShows(w: Wait, taken: seq<Message>, k: nat)
      requires Took(w, taken, k)
      ensures Valid() && TookInOrder(w.queue, w.before, pending, Messages(), taken, k)
              && (w.flowing ==> socket.Flowing())
      ensures handed == w.handed + taken && OnlyPongs(w.outgoing, outgoing) && k <= |w.queue| && pending == w.queue[k..]
      ensures w.seen <= |socket.seen|
    {
    }

    lemma TookAgain(w: Wait, taken: seq<Message>, k: nat)
      requires Valid() && TookInOrder(w.queue, w.before, pending, Messages(), taken, k)
      requires handed == w.handed + taken && OnlyPongs(w.outgoing, outgoing) && (w.flowing ==> socket.Flowing())
      requires w.seen <= |socket.seen|
      ensures Took(w, taken, k)
    {
    }

    /** What is evident since later is evident since before. */
    lemma CausesSince(r: Reception, now: nat, before: nat, at: nat)
      requires Causes(r, now, at) && before <= now
      ensures Causes(r, before, at)
    {
    }

    lemma OutcomeCaused(r: Reception, seen: nat, at: nat)
      requires Causes(r, seen, at)
      ensures Caused(Outcome(r), seen, at, false)
    {
    }

    lemma CausedByClock(seen: nat, at: nat)
      ensures Caused(Failure(TimedOutWaiting), seen, at, true)
    {
    }

    lemma CausedAnyhow(result: Reply, seen: nat, at: nat, over: bool)
      requires Caused(result, seen, at, false)
      ensures Caused(result, seen, at, over)
    {
    }

    /** One receive of a wait. */
    method RecvFor(ghost w: Wait, ghost taken: seq<Message>, ghost k: nat) returns (r: Reception, ghost kNow: nat)
      requires Took(w, taken, k)
      modifies this`written, this`arrivals, this`handed, this`outgoing, this`pending, socket
      ensures Took(w, taken + Listed(MessageIn(r)), kNow) && kNow == (if k < |w.queue| then k + 1 else k)
      ensures k < |w.queue| ==> r == Received(w.queue[k])
      ensures w.flowing ==> FirstOf(old(Inbox()), r, Inbox())
      ensures Causes(r, w.seen, written)
    {
      hide *;
      ghost var queue, all, sent, seen := pending, Messages(), outgoing, |socket.seen|;
      TookShows(w, taken, k);
      r := Recv();
      kNow := if k < |w.queue| then k + 1 else k;
      TookOne(w.queue, w.before, queue, all, taken, k, r);
      Regroup(w.handed, taken, Listed(MessageIn(r)));
      OnlyPongsTwice(w.outgoing, sent, outgoing);
      CausesSince(r, seen, w.seen, written);
      TookAgain(w, taken + Listed(MessageIn(r)), kNow);
    }

    /** One turn of a request that waits for the response numbered `id`. */
    method AwaitOne(id: nat, handled: seq<Message>, ghost w: Wait, ghost n: nat, ghost k: nat)
      returns (now: seq<Message>, answer: Option<Message>, stop: Option<Reply>, ghost kNow: nat)
      requires Took(w, handled, k) && Judged(w, handled, None, n, k, None, Inbox())
      requires w.id == id && n < |w.clock| && !w.clock[n]
      modifies this`written, this`arrivals, this`handed, this`outgoing, this`pending, socket
      ensures Took(w, now + Listed(answer), kNow) && Judged(w, now, answer, n + 1, kNow, stop, Inbox())
      ensures if stop.None? then answer.None? else Caused(stop.value, w.seen, written, false)
    {
      hide Parse, IsFrames, FramesIn, Gifts, NextOf, Upcoming, Arrived, Carries, Causes, Caused;
      ghost var inbox := Inbox();
      var r;
      r, kNow := RecvFor(w, handled, k);
      JudgeOne(w, handled, n, k, inbox, r, Inbox());
      if r.Received? && r.message.value.id != Some(id) {
        now, answer, stop := handled + [r.message], None, None;
        NothingListed(now);
      } else {
        now, answer, stop := handled, MessageIn(r), Some(Outcome(r));
        OutcomeCaused(r, w.seen, written);
      }
    }

    lemma WaitStarts(w: Wait)
      requires Valid() && w.queue == pending && w.before == Messages() && w.handed == handed && w.outgoing == outgoing
      requires w.flowing == socket.Flowing() && w.inbox == Inbox() && w.seen == |socket.seen|
      ensures Took(w, [] + Listed(None), 0) && Judged(w, [], None, 0, 0, None, Inbox())
    {
      JudgeBegins(w);
      assert pending[0..] == pending && Messages()[|Messages()|..] == [];
    }

    /** Waits for the response numbered `id`; the other messages go to the handler, that is to `handled`. The clock
        says, turn by turn, whether the time is over. */
    method Await(id: nat, clock: seq<bool>, ghost w: Wait)
      returns (result: Reply, handled: seq<Message>, answer: Option<Message>, ghost k: nat, ghost n: nat)
      requires w.id == id && w.clock == clock && Took(w, [] + Listed(None), 0)
      requires Judged(w, [], None, 0, 0, None, Inbox())
      modifies this`written, this`arrivals, this`handed, this`outgoing, this`pending, socket
      ensures Took(w, handled + Listed(answer), k) && Judged(w, handled, answer, n, k, Some(result), Inbox())
      ensures Caused(result, w.seen, written, ClockOver(clock, |handled|))
    {
      hide *;
      handled, answer, k := [], None, 0;
      var stop: Option<Reply> := None;
      var turn := 0;
      while turn < |clock| && !clock[turn] && stop.None?
        invariant turn <= |clock| && Took(w, handled + Listed(answer), k)
        invariant Judged(w, handled, answer, turn, k, stop, Inbox())
        invariant if stop.None? then answer.None? else Caused(stop.value, w.seen, written, false)
      {
        NothingListed(handled);
        handled, answer, stop, k := AwaitOne(id, handled, w, turn, k);
        turn := turn + 1;
      }
      n := turn;
      if stop.None? {
        JudgeLate(w, handled, turn, k, Inbox());
        CausedByClock(w.seen, written);
        result := Failure(TimedOutWaiting);
      } else {
        CausedAnyhow(stop.value, w.seen, written, ClockOver(clock, |handled|));
        result := stop.value;
      }
    }

    /** A number is left, and the request's frame can be written. */
    predicate Sends(encode: nat -> seq<byte>)
      reads this
    {
      nextId < U64_MAX && Sendable(Frame(1, encode(nextId))) && CanWrite(writes, written)
    }

    /** Takes a number and writes the request; the number is used even if the write fails. */
    method SendRequest(encode: nat -> seq<byte>) returns (id: Option<nat>, ghost wires: seq<seq<byte>>)
      requires Valid() && IdsIncrease()
      modifies this`nextId, this`usedIds, this`written, this`outgoing
      ensures Valid() && IdsIncrease() && outgoing == old(outgoing) + wires
      ensures if old(nextId) == U64_MAX then nextId == old(nextId) && usedIds == old(usedIds)
              else nextId == old(nextId) + 1 && usedIds == old(usedIds) + [old(nextId)]
      ensures id == if old(Sends(encode)) then Some(old(nextId)) else None
      ensures id.Some? ==> Inbox() == old(InboxAt(written + 1)) && CarryAll(wires, [Frame(1, encode(id.value))])
      ensures id.None? ==> outgoing == old(outgoing)
    {
      hide Parse, IsFrames, FramesIn, Gifts, NextOf, Upcoming, Arrived, Carries;
      wires := [];
      id := TakeId();
      if id.None? {
        return None, [];
      }
      var ok, next, sent := SendFrame(writes, written, 1, encode(id.value));
      written, outgoing, wires := next, outgoing + sent, sent;
      if !ok {
        return None, [];
      }
    }

    /** What a wait that has ended shows. */
    lemma WaitEnds(w: Wait, handled: seq<Message>, answer: Option<Message>, n: nat, k: nat, result: Reply)
      requires Took(w, handled + Listed(answer), k) && Judged(w, handled, answer, n, k, Some(result), Inbox())
      ensures Valid() && TookInOrder(w.queue, w.before, pending, Messages(), handled + Listed(answer), k)
      ensures handed == w.handed + (handled + Listed(answer)) && OnlyPongs(w.outgoing, outgoing)
      ensures OthersOnly(handled, w.id) && Answers(result, answer, w.id) && k == TakenFrom(w.queue, w.id, w.clock, 0)
      ensures w.flowing ==>
              socket.Flowing() && Decided(w.inbox, w.id, w.clock, Waited(result, handled, answer, Inbox()))
    {
    }

    /** Without a wait, nothing is taken. */
    lemma NoWait(id: nat)
      ensures TookInOrder(pending, Messages(), pending, Messages(), [] + Listed(None), 0)
      ensures handed == handed + ([] + Listed(None))
      ensures OthersOnly([], id) && Answers(Failure(Protocol), None, id)
    {
      assert pending[0..] == pending && Messages()[|Messages()|..] == [];
    }

    /** A request: it fails before sending when the numbers are used up, and uses a number even if the write fails. Once
        its frame is written, it waits for its response. */
    method RequestWithHandler(encode: nat -> seq<byte>, clock: seq<bool>)
      returns (result: Reply, handled: seq<Message>, answer: Option<Message>, ghost k: nat)
      requires Valid() && IdsIncrease()
      modifies this, socket
      ensures Valid() && IdsIncrease()
      ensures if old(nextId) == U64_MAX then nextId == old(nextId) && usedIds == old(usedIds)
              else nextId == old(nextId) + 1 && usedIds == old(usedIds) + [old(nextId)]
      ensures TookInOrder(old(pending), old(Messages()), pending, Messages(), handled + Listed(answer), k)
      ensures handed == old(handed) + (handled + Listed(answer))
      ensures OthersOnly(handled, old(nextId)) && Answers(result, answer, old(nextId))
      ensures if old(Sends(encode))
              then Sent(old(outgoing), outgoing, Frame(1, encode(old(nextId))))
                   && k == TakenFrom(old(pending), old(nextId), clock, 0)
              else result == Failure(Protocol) && k == 0 && handled == [] && outgoing == old(outgoing)
      ensures old(Sends(encode)) && old(socket.Flowing()) ==>
              socket.Flowing()
              && Decided(old(InboxAt(written + 1)), old(nextId), clock, Waited(result, handled, answer, Inbox()))
      ensures old(Sends(encode)) ==> Caused(result, |old(socket.seen)|, written, ClockOver(clock, |handled|))
    {
      hide *;
      ghost var before := outgoing;
      var id;
      ghost var wires, n;
      id, wires := SendRequest(encode);
      if id.None? {
        NoWait(nextId);
        NoWait(old(nextId));
        return Failure(Protocol), [], None, 0;
      }
      ghost var w := Wait(id.value, clock, pending, Messages(), handed, outgoing, socket.Flowing(), Inbox(),
                             |socket.seen|);
      WaitStarts(w);
      result, handled, answer, k, n := Await(id.value, clock, w);
      WaitEnds(w, handled, answer, n, k, result);
      SentFirst(before, wires, outgoing, Frame(1, encode(id.value)));
    }

    /** Puts messages that were passed over at the end of the queue. */
    method Requeue(handled: seq<Message>, ghost base: seq<Message>, ghost answer: Option<Message>)
      requires Valid() && handed == base + (handled + Listed(answer))
      modifies this`pending, this`handed
      ensures Valid() && pending == old(pending) + handled && handed == base + Listed(answer)
    {
      hide Parse, IsFrames, FramesIn, Gifts, NextOf, Upcoming, Arrived, Carries;
      pending, handed := pending + handled, base + Listed(answer);
    }

    lemma QueueArrived()
      requires Valid()
      ensures Messages() == Arrived(decode, socket.seen) && multiset(pending) <= multiset(Messages())
    {
    }

    lemma WritesBounded()
      requires Valid()
      ensures written <= |socket.incoming| + |usedIds|
    {
    }

    lemma InboxSplits()
      ensures Inbox() == Queued(pending) + ArrivingAt(written, arrivals)
    {
    }

    /** A request that queues the messages it passes over, whatever its result. If its frame can be written, it is, and
        the request takes the queue as the number and the clock say; on a socket that delivers, it ends as the queue and
        the frames to come decide. An ordered queue stays ordered exactly as can be told beforehand. */
    method Request(encode: nat -> seq<byte>, clock: seq<bool>)
      returns (result: Reply, ghost answer: Option<Message>, ghost passed: seq<Message>, ghost k: nat)
      requires Valid() && IdsIncrease()
      modifies this, socket
      ensures Valid() && IdsIncrease()
      ensures if old(nextId) == U64_MAX then nextId == old(nextId) && usedIds == old(usedIds)
              else nextId == old(nextId) + 1 && usedIds == old(usedIds) + [old(nextId)]
      ensures k <= |old(pending)| && pending == old(pending)[k..] + passed
      ensures TookInOrder(old(pending), old(Messages()), old(pending)[k..], Messages(), passed + Listed(answer), k)
      ensures handed == old(handed) + Listed(answer)
      ensures OthersOnly(passed, old(nextId)) && Answers(result, answer, old(nextId))
      ensures if old(Sends(encode))
              then Sent(old(outgoing), outgoing, Frame(1, encode(old(nextId))))
                   && k == TakenFrom(old(pending), old(nextId), clock, 0)
              else result == Failure(Protocol) && k == 0 && passed == [] && outgoing == old(outgoing)
      ensures old(Sends(encode)) && old(socket.Flowing()) ==>
              socket.Flowing()
              && Decided(old(InboxAt(written + 1)), old(nextId), clock,
                         Waited(result, passed, answer, Queued(old(pending)[k..]) + ArrivingAt(written, arrivals)))
      ensures old(Sends(encode)) ==> Caused(result, |old(socket.seen)|, written, ClockOver(clock, |passed|))
      ensures old(Ordered(pending)) ==>
              (Ordered(pending) <==> !old(Sends(encode)) || KeepsOrder(old(pending), old(nextId), clock))
    {
      hide *;
      var got, handled;
      ghost var queue, id, seen := pending, nextId, socket.seen;
      QueueArrived();
      result, handled, got, k := RequestWithHandler(encode, clock);
      RestOfQueue(queue, old(Messages()), pending, Messages(), handled + Listed(got), k);
      InboxSplits();
      QueueArrived();
      if old(Ordered(pending)) && old(Sends(encode)) {
        RequestKeepsOrderIff(decode, seen, socket.seen, queue, id, clock, result, handled, got, k);
      }
      Requeue(handled, old(handed), got);
      assert !old(Sends(encode)) ==> pending == queue;
      answer, passed := got, handled;
    }

    /** Hands out the whole queue. */
    method DrainPendingMessages() returns (messages: seq<Message>)
      requires Valid()
      modifies this`pending, this`handed
      ensures Valid() && messages == old(pending) && pending == [] && handed == old(handed) + messages
    {
      hide Parse, IsFrames, FramesIn, Arrived;
      messages := pending;
      pending, handed := [], handed + messages;
    }
  }
}
