/** What arrives at the JSON-RPC client, and how a request takes it: the messages among the frames, the order in which
    they are taken from the queue and from the socket, and how a wait for a response ends. */
module Waits {
  import opened Results
  import opened Frames
  import opened Connection
  import opened Receive

  /** A decoded message: its numeric id and its error, if it has them, and its text. */
  datatype Value = Value(id: Option<nat>, error: Option<string>, text: string)

  /** A message with its place in the order of arrival. */
  datatype Message = Message(place: nat, value: Value)

  type Decoder = seq<byte> -> Option<Value>

  predicate IsMessage(decode: Decoder, f: Frame) { f.opcode == 1 && decode(f.payload).Some? }

  /** The messages among the frames: the decodable texts, numbered as they come. */
  function Arrived(decode: Decoder, frames: seq<Frame>): seq<Message> {
    if frames == [] then []
    else
      var before, f := Arrived(decode, frames[..|frames| - 1]), frames[|frames| - 1];
      if IsMessage(decode, f) then before + [Message(|before|, decode(f.payload).value)] else before
  }

  lemma {:induction false} ArrivedPassedOver(decode: Decoder, seen: seq<Frame>, fs: seq<Frame>)
    requires PassedOver(fs)
    ensures Arrived(decode, seen + fs) == Arrived(decode, seen)
  {
    if fs == [] {
      assert seen + fs == seen;
    } else {
      assert (seen + fs)[..|seen + fs| - 1] == seen + fs[..|fs| - 1];
      ArrivedPassedOver(decode, seen, fs[..|fs| - 1]);
    }
  }

  /** What the frames of one receive add to the messages. */
  lemma ArrivedByReceive(decode: Decoder, seen: seq<Frame>, r: TextRead, fs: seq<Frame>)
    requires EndsAs(r, fs)
    ensures var before := Arrived(decode, seen);
            Arrived(decode, seen + fs) ==
            if r.Text? && decode(r.payload).Some? then before + [Message(|before|, decode(r.payload).value)] else before
  {
    if r.Text? || r.CloseFrame? {
      assert (seen + fs)[..|seen + fs| - 1] == seen + fs[..|fs| - 1];
      ArrivedPassedOver(decode, seen, fs[..|fs| - 1]);
    } else {
      ArrivedPassedOver(decode, seen, fs);
    }
  }

  lemma {:induction false} ArrivedInPlace(decode: Decoder, frames: seq<Frame>, i: nat)
    requires i < |Arrived(decode, frames)|
    ensures Arrived(decode, frames)[i].place == i
  {
    var before := frames[..|frames| - 1];
    if i < |Arrived(decode, before)| { ArrivedInPlace(decode, before, i); }
  }

  /** How far a request got into the queue and the arriving messages: it took the first `k` of the queue, and messages
      from the socket only once the queue was used up. */
  predicate TookInOrder(queue: seq<Message>, before: seq<Message>, rest: seq<Message>, after: seq<Message>,
                        taken: seq<Message>, k: nat) {
    && k <= |queue| && rest == queue[k..] && before <= after
    && taken == queue[..k] + after[|before|..]
    && (|after| > |before| ==> k == |queue|)
  }

  lemma TookFromQueue(queue: seq<Message>, before: seq<Message>, rest: seq<Message>, after: seq<Message>,
                      taken: seq<Message>, k: nat)
    requires TookInOrder(queue, before, rest, after, taken, k) && rest != []
    ensures TookInOrder(queue, before, rest[1..], after, taken + [rest[0]], k + 1)
  {
    assert queue[..k + 1] == queue[..k] + [queue[k]];
    assert after[|before|..] == [];
  }

  lemma TookFromSocket(queue: seq<Message>, before: seq<Message>, rest: seq<Message>, after: seq<Message>,
                       taken: seq<Message>, k: nat, m: Message)
    requires TookInOrder(queue, before, rest, after, taken, k) && rest == []
    ensures TookInOrder(queue, before, rest, after + [m], taken + [m], k)
  {
    assert (after + [m])[|before|..] == after[|before|..] + [m];
  }

  predicate Ordered(ms: seq<Message>) {
    forall i, j :: 0 <= i < j < |ms| ==> ms[i].place < ms[j].place
  }

  /** After a request the queue is what it left of the old queue, then what it passed over. That is in order of arrival
      exactly if it used up the old queue or passed nothing over. */
  lemma QueueOrder(queue: seq<Message>, k: nat, arrived: seq<Message>, passed: seq<Message>)
    requires k <= |queue| && Ordered(queue + arrived) && (arrived != [] ==> k == |queue|)
    requires passed <= queue[..k] + arrived
    ensures Ordered(queue[k..] + passed) <==> k == |queue| || passed == []
  {
    var all := queue[k..] + passed;
    if k == |queue| {
      assert all == passed && queue[..k] == queue;
      forall i, j | 0 <= i < j < |all| ensures all[i].place < all[j].place {
        assert all[i] == (queue + arrived)[i] && all[j] == (queue + arrived)[j];
      }
    } else if passed == [] {
      forall i, j | 0 <= i < j < |all| ensures all[i].place < all[j].place {
        assert all[i] == (queue + arrived)[k + i] && all[j] == (queue + arrived)[k + j];
      }
    } else {
      assert all[0] == (queue + arrived)[k] && all[|queue| - k] == passed[0] == (queue + arrived)[0];
      assert all[0].place > all[|queue| - k].place;
    }
  }

  /** How many messages of the queue, from `i` on, a request takes: up to the one that carries its number `id`, or
      until a turn finds the time over. */
  function TakenFrom(queue: seq<Message>, id: nat, clock: seq<bool>, i: nat): (k: nat)
    requires i <= |queue|
    ensures i <= k <= |queue|
    decreases |queue| - i
  {
    if i == |queue| || i >= |clock| || clock[i] then i
    else if queue[i].value.id == Some(id) then i + 1
    else TakenFrom(queue, id, clock, i + 1)
  }

  /** The first `k` messages are taken exactly if time is left for each of them, the number is not among those before
      the last, and there is a reason to stop there. */
  lemma {:induction false} TakenIs(queue: seq<Message>, id: nat, clock: seq<bool>, i: nat, k: nat)
    requires i <= k <= |queue|
    ensures TakenFrom(queue, id, clock, i) == k <==>
            && (k > i ==> k <= |clock|) && (forall j :: i <= j < k ==> !clock[j])
            && (forall j :: i <= j < k - 1 ==> queue[j].value.id != Some(id))
            && (k == |queue| || k >= |clock| || clock[k] || (k > i && queue[k - 1].value.id == Some(id)))
    decreases |queue| - i
  {
    if i < k && i < |clock| && !clock[i] && queue[i].value.id != Some(id) {
      TakenIs(queue, id, clock, i + 1, k);
    }
  }

  /** Nothing is taken from the queue, or all of it, or just the response that heads it. */
  predicate KeepsOrder(queue: seq<Message>, id: nat, clock: seq<bool>) {
    var k := TakenFrom(queue, id, clock, 0);
    k == 0 || k == |queue| || (k == 1 && queue[0].value.id == Some(id))
  }

  /** A request leaves an ordered queue ordered exactly if the queue, the number and the clock say so beforehand. */
  lemma RequestKeepsOrderIff(decode: Decoder, seenBefore: seq<Frame>, seenAfter: seq<Frame>, queue: seq<Message>,
                             id: nat, clock: seq<bool>, result: Reply, passed: seq<Message>,
                             answer: Option<Message>, k: nat)
    requires Ordered(queue) && multiset(queue) <= multiset(Arrived(decode, seenBefore))
    requires k == TakenFrom(queue, id, clock, 0)
    requires TookInOrder(queue, Arrived(decode, seenBefore), queue[k..], Arrived(decode, seenAfter),
                         passed + Listed(answer), k)
    requires OthersOnly(passed, id) && Answers(result, answer, id)
    ensures Ordered(queue[k..] + passed) <==> KeepsOrder(queue, id, clock)
  {
    var before, after := Arrived(decode, seenBefore), Arrived(decode, seenAfter);
    var arrived := after[|before|..];
    ArrivalsFollow(decode, seenBefore, seenAfter, queue);
    assert passed <= queue[..k] + arrived;
    QueueOrder(queue, k, arrived, passed);
    if k < |queue| { PassedFromQueue(queue, id, k, passed, answer); }
  }

  /** When the queue lasts, a request passed nothing over only if it took nothing, or just its response. */
  lemma PassedFromQueue(queue: seq<Message>, id: nat, k: nat, passed: seq<Message>, answer: Option<Message>)
    requires k <= |queue| && passed + Listed(answer) == queue[..k] && OthersOnly(passed, id)
    requires answer.Some? ==> answer.value.value.id == Some(id)
    ensures passed == [] <==> k == 0 || (k == 1 && queue[0].value.id == Some(id))
  {
    assert |passed| + |Listed(answer)| == k;
    if k == 1 { assert (passed + Listed(answer))[0] == queue[0]; }
  }

  lemma ArrivalsFollow(decode: Decoder, seenBefore: seq<Frame>, seenAfter: seq<Frame>, queue: seq<Message>)
    requires Ordered(queue) && multiset(queue) <= multiset(Arrived(decode, seenBefore))
    requires Arrived(decode, seenBefore) <= Arrived(decode, seenAfter)
    ensures Ordered(queue + Arrived(decode, seenAfter)[|Arrived(decode, seenBefore)|..])
  {
    var before, after := Arrived(decode, seenBefore), Arrived(decode, seenAfter);
    var arrived := after[|before|..];
    forall i | 0 <= i < |arrived| ensures arrived[i].place == |before| + i {
      ArrivedInPlace(decode, seenAfter, |before| + i);
    }
    forall i | 0 <= i < |queue| ensures queue[i].place < |before| {
      QueuedEarlier(decode, seenBefore, queue, i);
    }
    OrderedBelow(queue, arrived, |before|);
  }

  lemma OrderedBelow(early: seq<Message>, late: seq<Message>, bound: nat)
    requires Ordered(early) && (forall i :: 0 <= i < |early| ==> early[i].place < bound)
    requires forall i :: 0 <= i < |late| ==> late[i].place == bound + i
    ensures Ordered(early + late)
  {
  }

  lemma QueuedEarlier(decode: Decoder, seen: seq<Frame>, queue: seq<Message>, i: nat)
    requires i < |queue| && multiset(queue) <= multiset(Arrived(decode, seen))
    ensures queue[i].place < |Arrived(decode, seen)|
  {
    assert queue[i] in multiset(queue);
    var n :| 0 <= n < |Arrived(decode, seen)| && Arrived(decode, seen)[n] == queue[i];
    ArrivedInPlace(decode, seen, n);
  }

  // ---------------------------------------------------------------- receptions, and what a request makes of them

  datatype Fault = BadRead(why: Trouble) | BadWrite | BadText

  datatype Reception = Received(message: Message) | Timeout | ClosedByPeer | ReceiveError(why: Fault)

  datatype RequestError = TimedOutWaiting | Remote(text: string) | ConnectionClosed | Protocol

  type Reply = Result<string, RequestError>

  /** A text that does not decode is an error. */
  function ReceptionOf(decode: Decoder, r: TextRead, place: nat): Reception {
    match r
    case Text(payload) =>
      if decode(payload).Some? then Received(Message(place, decode(payload).value)) else ReceiveError(BadText)
    case CloseFrame => ClosedByPeer
    case Late => Timeout
    case ReadTrouble(why) => ReceiveError(BadRead(why))
    case WriteTrouble => ReceiveError(BadWrite)
  }

  /** What a request makes of a reception that ends it. */
  function Outcome(r: Reception): Reply {
    match r
    case Received(m) => if m.value.error.Some? then Failure(Remote(m.value.error.value)) else Success(m.value.text)
    case Timeout => Failure(TimedOutWaiting)
    case ClosedByPeer => Failure(ConnectionClosed)
    case ReceiveError(_) => Failure(Protocol)
  }

  function Listed(m: Option<Message>): seq<Message> { if m.Some? then [m.value] else [] }

  function MessageIn(r: Reception): Option<Message> { if r.Received? then Some(r.message) else None }

  predicate IsOther(r: Reception, id: nat) { r.Received? && r.message.value.id != Some(id) }

  predicate OthersOnly(handled: seq<Message>, id: nat) {
    forall i :: 0 <= i < |handled| ==> handled[i].value.id != Some(id)
  }

  /** A result comes from the message with the request's number, its error or else its text, or from no message at
      all. */
  predicate Answers(result: Reply, answer: Option<Message>, id: nat) {
    match answer
    case None => result.Failure? && !result.error.Remote?
    case Some(m) =>
      && m.value.id == Some(id)
      && (if m.value.error.Some? then result == Failure(Remote(m.value.error.value))
          else result == Success(m.value.text))
  }

  function Queued(ms: seq<Message>): seq<Reception> {
    seq(|ms|, i requires 0 <= i < |ms| => Received(ms[i]))
  }

  /** The receptions that the frames `rest` lead to: the next text, close frame or unanswered ping decides each. */
  function Upcoming(decode: Decoder, rest: seq<Frame>, writes: seq<Write>, at: nat, place: nat): seq<Reception>
    decreases |rest|
  {
    var n := NextOf(rest, writes, at);
    if n.None? then []
    else
      var r := ReceptionOf(decode, n.value.r, place);
      [r] + Upcoming(decode, rest[n.value.frames..], writes, n.value.next, if r.Received? then place + 1 else place)
  }

  /** The end of a wait: its result, the messages it handed on, its response, and the receptions that it left. */
  datatype Waited = Waited(result: Reply, handled: seq<Message>, answer: Option<Message>, left: seq<Reception>)

  /** How a request with number `id` ends when `inbox` is what it can receive; None if that does not decide it. */
  function WaitFor(inbox: seq<Reception>, id: nat, clock: seq<bool>): Option<Waited>
    decreases |clock|
  {
    if clock == [] || clock[0] then Some(Waited(Failure(TimedOutWaiting), [], None, inbox))
    else if inbox == [] then None
    else if IsOther(inbox[0], id) then Behind([inbox[0].message], WaitFor(inbox[1..], id, clock[1..]))
    else Some(Waited(Outcome(inbox[0]), [], MessageIn(inbox[0]), inbox[1..]))
  }

  function Behind(ms: seq<Message>, w: Option<Waited>): Option<Waited> {
    if w.None? then None else Some(w.value.(handled := ms + w.value.handled))
  }

  /** As long as other messages come and time is left, they are handed on; the first reception that is not another
      message gives the result, unless the time is over before it. */
  lemma {:induction false} WaitForFirst(inbox: seq<Reception>, id: nat, clock: seq<bool>, others: seq<Message>)
    requires |others| <= |inbox| && |others| <= |clock| && OthersOnly(others, id)
    requires forall i :: 0 <= i < |others| ==> inbox[i] == Received(others[i]) && !clock[i]
    ensures var n := |others|;
            n == |clock| || clock[n] ==>
            WaitFor(inbox, id, clock) == Some(Waited(Failure(TimedOutWaiting), others, None, inbox[n..]))
    ensures var n := |others|;
            n < |clock| && !clock[n] && n == |inbox| ==> WaitFor(inbox, id, clock) == None
    ensures var n := |others|;
            n < |clock| && !clock[n] && n < |inbox| && !IsOther(inbox[n], id) ==>
            WaitFor(inbox, id, clock) == Some(Waited(Outcome(inbox[n]), others, MessageIn(inbox[n]), inbox[n + 1..]))
  {
    if others != [] {
      WaitForFirst(inbox[1..], id, clock[1..], others[1..]);
      assert [others[0]] + others[1..] == others;
    }
  }

  // ---------------------------------------------------------------- steps of a wait

  /** After `n` receptions, `handled` was handed on, and `now` decides the rest of the wait. */
  predicate Awaiting(inbox: seq<Reception>, id: nat, clock: seq<bool>, n: nat, handled: seq<Message>,
                     now: seq<Reception>) {
    WaitFor(inbox, id, clock).Some? ==>
      n <= |clock| && WaitFor(inbox, id, clock) == Behind(handled, WaitFor(now, id, clock[n..]))
  }

  predicate Decided(inbox: seq<Reception>, id: nat, clock: seq<bool>, w: Waited) {
    WaitFor(inbox, id, clock).Some? ==> WaitFor(inbox, id, clock) == Some(w)
  }

  /** `r` is the first of `now`, and `next` are the others, if there are any. */
  predicate FirstOf(now: seq<Reception>, r: Reception, next: seq<Reception>) {
    now == [] || now == [r] + next
  }

  lemma AwaitBegins(inbox: seq<Reception>, id: nat, clock: seq<bool>)
    ensures Awaiting(inbox, id, clock, 0, [], inbox)
  {
    var w := WaitFor(inbox, id, clock);
    assert clock[0..] == clock;
    assert w.Some? ==> [] + w.value.handled == w.value.handled;
  }

  lemma AwaitGoesOn(inbox: seq<Reception>, id: nat, clock: seq<bool>, n: nat, handled: seq<Message>,
                    now: seq<Reception>, r: Reception, next: seq<Reception>)
    requires Awaiting(inbox, id, clock, n, handled, now) && n < |clock| && !clock[n]
    requires FirstOf(now, r, next) && IsOther(r, id)
    ensures Awaiting(inbox, id, clock, n + 1, handled + [r.message], next)
  {
    assert clock[n..][1..] == clock[n + 1..];
    var w := WaitFor(next, id, clock[n + 1..]);
    assert w.Some? ==> handled + ([r.message] + w.value.handled) == handled + [r.message] + w.value.handled;
  }

  lemma AwaitEnds(inbox: seq<Reception>, id: nat, clock: seq<bool>, n: nat, handled: seq<Message>,
                  now: seq<Reception>, r: Reception, next: seq<Reception>)
    requires Awaiting(inbox, id, clock, n, handled, now) && n < |clock| && !clock[n]
    requires FirstOf(now, r, next) && !IsOther(r, id)
    ensures Decided(inbox, id, clock, Waited(Outcome(r), handled, MessageIn(r), next))
  {
    assert handled + [] == handled;
  }

  lemma AwaitLate(inbox: seq<Reception>, id: nat, clock: seq<bool>, n: nat, handled: seq<Message>, now: seq<Reception>)
    requires Awaiting(inbox, id, clock, n, handled, now) && (n >= |clock| || clock[n])
    ensures Decided(inbox, id, clock, Waited(Failure(TimedOutWaiting), handled, None, now))
  {
    assert handled + [] == handled;
  }

  /** After `n` receptions, `k` of them from the queue. */
  predicate Counting(queue: seq<Message>, id: nat, clock: seq<bool>, n: nat, k: nat) {
    && k <= |queue| && k <= n && (k == n || k == |queue|)
    && TakenFrom(queue, id, clock, 0) == TakenFrom(queue, id, clock, k)
  }

  lemma CountedOne(queue: seq<Message>, id: nat, clock: seq<bool>, n: nat, k: nat, r: Reception)
    requires Counting(queue, id, clock, n, k) && n < |clock| && !clock[n]
    requires k < |queue| ==> r == Received(queue[k])
    ensures var now := if k < |queue| then k + 1 else k;
            if IsOther(r, id) then Counting(queue, id, clock, n + 1, now) else now == TakenFrom(queue, id, clock, 0)
  {
  }

  /** What a wait began with. */
  datatype Wait = Wait(id: nat, clock: seq<bool>, queue: seq<Message>, before: seq<Message>, handed: seq<Message>,
                       outgoing: seq<seq<byte>>, flowing: bool, inbox: seq<Reception>, seen: nat)

  /** What has been decided after `n` receptions, `k` of them from the queue, when `inbox` is left: the wait goes on,
      or it ends as it must. */
  predicate Judged(w: Wait, handled: seq<Message>, answer: Option<Message>, n: nat, k: nat, stop: Option<Reply>,
                   inbox: seq<Reception>) {
    && OthersOnly(handled, w.id)
    && match stop
       case None =>
         && answer.None? && |handled| == n && Counting(w.queue, w.id, w.clock, n, k)
         && (w.flowing ==> Awaiting(w.inbox, w.id, w.clock, n, handled, inbox))
       case Some(result) =>
         && Answers(result, answer, w.id) && k == TakenFrom(w.queue, w.id, w.clock, 0)
         && (w.flowing ==> Decided(w.inbox, w.id, w.clock, Waited(result, handled, answer, inbox)))
  }

  /** The turn after `n` others finds the time over. */
  predicate ClockOver(clock: seq<bool>, n: nat) { n >= |clock| || clock[n] }

  /** One more reception is another message, or ends the wait. */
  lemma JudgeOne(w: Wait, handled: seq<Message>, n: nat, k: nat, inbox: seq<Reception>, r: Reception,
                 next: seq<Reception>)
    requires Judged(w, handled, None, n, k, None, inbox) && n < |w.clock| && !w.clock[n]
    requires (k < |w.queue| ==> r == Received(w.queue[k])) && (w.flowing ==> FirstOf(inbox, r, next))
    ensures var now := if k < |w.queue| then k + 1 else k;
            if IsOther(r, w.id) then Judged(w, handled + [r.message], None, n + 1, now, None, next)
            else Judged(w, handled, MessageIn(r), n + 1, now, Some(Outcome(r)), next)
  {
    CountedOne(w.queue, w.id, w.clock, n, k, r);
    if w.flowing {
      if IsOther(r, w.id) {
        AwaitGoesOn(w.inbox, w.id, w.clock, n, handled, inbox, r, next);
      } else {
        AwaitEnds(w.inbox, w.id, w.clock, n, handled, inbox, r, next);
      }
    }
  }

  lemma JudgeBegins(w: Wait)
    ensures Judged(w, [], None, 0, 0, None, w.inbox)
  {
    AwaitBegins(w.inbox, w.id, w.clock);
  }

  lemma JudgeLate(w: Wait, handled: seq<Message>, n: nat, k: nat, inbox: seq<Reception>)
    requires Judged(w, handled, None, n, k, None, inbox) && (n >= |w.clock| || w.clock[n])
    ensures Judged(w, handled, None, n, k, Some(Failure(TimedOutWaiting)), inbox) && ClockOver(w.clock, |handled|)
  {
    if w.flowing { AwaitLate(w.inbox, w.id, w.clock, n, handled, inbox); }
  }

  // ---------------------------------------------------------------- what is written

  ghost predicate IsPong(wire: seq<byte>) {
    exists payload: seq<byte> :: Carries(wire, Frame(10, payload))
  }

  /** Between the two, nothing but pongs was written. */
  ghost predicate OnlyPongs(before: seq<seq<byte>>, after: seq<seq<byte>>) {
    before <= after && forall i {:trigger IsPong(after[i])} :: |before| <= i < |after| ==> IsPong(after[i])
  }

  /** The frame was written, and nothing but pongs after it. */
  ghost predicate Sent(before: seq<seq<byte>>, after: seq<seq<byte>>, f: Frame) {
    && before < after && Carries(after[|before|], f) && OnlyPongs(after[..|before| + 1], after)
  }

  lemma OnlyPongsTwice(before: seq<seq<byte>>, middle: seq<seq<byte>>, after: seq<seq<byte>>)
    requires OnlyPongs(before, middle) && OnlyPongs(middle, after)
    ensures OnlyPongs(before, after)
  {
    forall i | |before| <= i < |after| ensures IsPong(after[i]) {
      if i < |middle| { assert after[i] == middle[i] && IsPong(middle[i]); }
    }
  }

  lemma SentFirst(before: seq<seq<byte>>, middle: seq<seq<byte>>, after: seq<seq<byte>>, f: Frame)
    requires CarryAll(middle, [f]) && OnlyPongs(before + middle, after)
    ensures Sent(before, after, f)
  {
    assert Carries(middle[0], [f][0]);
    assert after[..|before| + 1] == before + middle;
    assert after[|before|] == (before + middle)[|before|] == middle[0];
  }

  lemma {:induction false} PongsAreSuch(fs: seq<Frame>, i: nat)
    requires i < |Pongs(fs)|
    ensures Pongs(fs)[i] == Frame(10, Pongs(fs)[i].payload)
  {
    if i >= |AnswerTo(fs[0])| { PongsAreSuch(fs[1..], i - |AnswerTo(fs[0])|); }
  }

  lemma PongsOnly(before: seq<seq<byte>>, wires: seq<seq<byte>>, fs: seq<Frame>)
    requires CarryAll(wires, Pongs(fs))
    ensures OnlyPongs(before, before + wires)
  {
    forall i | |before| <= i < |before + wires| ensures IsPong((before + wires)[i]) {
      PongsAreSuch(fs, i - |before|);
      assert Carries(wires[i - |before|], Pongs(fs)[i - |before|]);
    }
  }

  // ---------------------------------------------------------------- steps of the client

  /** The next reception and the ones after it, when the frames decide it. */
  lemma UpcomingMoves(decode: Decoder, coming: seq<Frame>, writes: seq<Write>, at: nat, place: nat, got: TextRead,
                      n: nat, next: nat, wires: seq<seq<byte>>, rest: seq<Frame>)
    requires Concluded(got, coming, n, writes, at, next, wires) && (!got.ReadTrouble? ==> rest == coming[n..])
    requires got.Late? || got.ReadTrouble? ==> NextOf(coming, writes, at).None?
    ensures var r := ReceptionOf(decode, got, place);
            FirstOf(Upcoming(decode, coming, writes, at, place), r,
                    Upcoming(decode, rest, writes, next, place + |Listed(MessageIn(r))|))
  {
  }

  /** The last frame, read since there were `before`, is the one that is to blame for the reception. */
  predicate Evident(decode: Decoder, seen: seq<Frame>, before: nat, r: Reception) {
    var last := if |seen| > before then Some(seen[|seen| - 1]) else None;
    match r
    case ClosedByPeer => last.Some? && last.value.opcode == 8
    case ReceiveError(BadWrite) => last.Some? && last.value.opcode == 9
    case ReceiveError(BadText) => last.Some? && last.value.opcode == 1 && decode(last.value.payload).None?
    case _ => true
  }

  /** The frames of a receive show the message that it gives, or what is to blame. */
  lemma ReceptionShows(decode: Decoder, seen: seq<Frame>, coming: seq<Frame>, writes: seq<Write>, at: nat,
                       got: TextRead, n: nat, next: nat, wires: seq<seq<byte>>)
    requires Concluded(got, coming, n, writes, at, next, wires)
    ensures var before := Arrived(decode, seen); var after := seen + coming[..n];
            var r := ReceptionOf(decode, got, |before|);
            && Arrived(decode, after) == before + Listed(MessageIn(r)) && Evident(decode, after, |seen|, r)
            && (r == ReceiveError(BadWrite) ==> Refused(writes, next)) && next <= at + n
  {
    ArrivedByReceive(decode, seen, got, coming[..n]);
  }

  lemma ConcludedPongs(before: seq<seq<byte>>, coming: seq<Frame>, writes: seq<Write>, at: nat, got: TextRead, n: nat,
                       next: nat, wires: seq<seq<byte>>)
    requires Concluded(got, coming, n, writes, at, next, wires)
    ensures OnlyPongs(before, before + wires)
  {
    PongsOnly(before, wires, Answered(got, coming[..n]));
  }

  lemma HandedAsArrived(all: seq<Message>, handed: seq<Message>, pending: seq<Message>, ms: seq<Message>)
    requires multiset(all) == multiset(handed) + multiset(pending)
    ensures multiset(all + ms) == multiset(handed + ms) + multiset(pending)
  {
  }

  lemma NothingListed(ms: seq<Message>)
    ensures ms + Listed(None) == ms
  {
  }

  lemma Regroup<T>(a: seq<T>, b: seq<T>, c: seq<T>)
    ensures (a + b) + c == a + (b + c)
  {
  }

  lemma RestOfQueue(queue: seq<Message>, before: seq<Message>, rest: seq<Message>, after: seq<Message>,
                    taken: seq<Message>, k: nat)
    requires TookInOrder(queue, before, rest, after, taken, k)
    ensures k <= |queue| && rest == queue[k..]
  {
  }

  lemma QueuedHead(ms: seq<Message>, arriving: seq<Reception>)
    requires ms != []
    ensures FirstOf(Queued(ms) + arriving, Received(ms[0]), Queued(ms[1..]) + arriving)
  {
    assert Queued(ms) == [Received(ms[0])] + Queued(ms[1..]);
  }

  /** One reception, from the queue while it lasts. */
  lemma TookOne(queue: seq<Message>, before: seq<Message>, rest: seq<Message>, after: seq<Message>,
                taken: seq<Message>, k: nat, r: Reception)
    requires TookInOrder(queue, before, rest, after, taken, k) && (rest != [] ==> r == Received(rest[0]))
    ensures rest != [] ==> TookInOrder(queue, before, rest[1..], after, taken + Listed(MessageIn(r)), k + 1)
    ensures rest == [] ==>
            TookInOrder(queue, before, rest, after + Listed(MessageIn(r)), taken + Listed(MessageIn(r)), k)
  {
    if rest != [] {
      TookFromQueue(queue, before, rest, after, taken, k);
    } else if r.Received? {
      TookFromSocket(queue, before, rest, after, taken, k, r.message);
    } else {
      NothingListed(taken);
      NothingListed(after);
    }
  }
}
