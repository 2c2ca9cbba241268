/** A queue that loses its order: a request whose time is over before it has taken all of the queue puts what it passed
    over behind the rest. */
module Overtaken {
  import opened Results
  import opened Frames
  import opened Connection
  import opened Receive
  import opened Waits
  import opened Client

  const NOTHING_TO_SAY: nat -> seq<byte> := n => []

  const QUIET: Value := Value(None, None, "")
  const FIRST: Message := Message(0, QUIET)
  const SECOND: Message := Message(1, QUIET)
  const BOTH: seq<Message> := [FIRST, SECOND]
  const TWO_TURNS: seq<bool> := [false, false, true]
  const ONE_TURN: seq<bool> := [false, true]

  const TEXT: Frame := Frame(1, [])
  const TWO_TEXTS: seq<Item> := [Item(TEXT, None), Item(TEXT, None)]
  const GIFT: Turn := Turn(false, Gives(1), false)
  const GOOD_WRITE: Write := Write(0, 0, 0, 0, true)

  predicate AllWell(writes: seq<Write>, n: nat) {
    |writes| == n && forall i :: 0 <= i < n ==> writes[i].ok
  }

  lemma {:induction false} AllGifts(turns: seq<Turn>, i: nat)
    requires i <= |turns| && forall j :: 0 <= j < |turns| ==> turns[j] == GIFT
    ensures Gifts(turns, i) == |turns| - i
    decreases |turns| - i
  {
    if i < |turns| { AllGifts(turns, i + 1); }
  }

  lemma TwoTextsCome()
    ensures FramesIn(Stream(TWO_TEXTS)) == [TEXT, TEXT]
  {
    StreamReadsBack(TWO_TEXTS);
    assert TWO_TEXTS[1..] == [Item(TEXT, None)] && [Item(TEXT, None)][1..] == [];
    assert FramesOf([Item(TEXT, None)]) == [TEXT] + FramesOf([]);
    assert FramesOf(TWO_TEXTS) == [TEXT] + [TEXT];
    FramesInAre(Stream(TWO_TEXTS), FramesOf(TWO_TEXTS));
  }

  lemma TwoUpcoming(decode: Decoder, writes: seq<Write>, at: nat)
    requires decode([]) == Some(QUIET)
    ensures Upcoming(decode, [TEXT, TEXT], writes, at, 0) == Queued(BOTH)
  {
    assert Queued(BOTH) == [Received(FIRST)] + [Received(SECOND)];
    assert [TEXT, TEXT][1..] == [TEXT] && [TEXT][1..] == [];
    assert Upcoming(decode, [], writes, at, 2) == [];
    assert Upcoming(decode, [TEXT], writes, at, 1) == [Received(SECOND)] + [];
    assert NextOf([TEXT, TEXT], writes, at) == Some(Turnout(Text([]), 1, at));
  }

  /** A client whose peer sends two texts without a number, at once. */
  method TwoTexts() returns (client: JsonRpcClient)
    ensures fresh(client) && fresh(client.socket) && client.Valid() && client.IdsIncrease()
    ensures client.pending == [] && client.nextId == 1 && client.written == 0 && client.usedIds == []
    ensures client.socket.Flowing() && AllWell(client.writes, |client.socket.incoming| + 2)
    ensures client.InboxAt(1) == Queued(BOTH)
  {
    hide Parse, IsFrames, NextOf, Upcoming, Stream, FramesIn;
    var incoming := Stream(TWO_TEXTS);
    var turns := seq(|incoming|, _ => GIFT);
    AllGifts(turns, 0);
    TwoTextsCome();
    var socket := new Socket(incoming, turns);
    assert incoming[0..] == incoming;
    client := new JsonRpcClient(socket, _ => Some(QUIET), seq(|incoming| + 2, _ => GOOD_WRITE));
    TwoUpcoming(client.decode, client.writes, 1);
  }

  /** Both messages arrive while the first request waits. */
  lemma BothPassedOver(inbox: seq<Reception>, w: Waited)
    requires inbox == Queued(BOTH) && Decided(inbox, 1, TWO_TURNS, w)
    ensures w.handled == BOTH
  {
    WaitForFirst(inbox, 1, TWO_TURNS, BOTH);
  }

  /** A request with one turn passes over the first of the two. */
  lemma OnePassedOver(before: seq<Message>, after: seq<Message>, result: Reply, passed: seq<Message>,
                      answer: Option<Message>, k: nat)
    requires k == TakenFrom(BOTH, 2, ONE_TURN, 0)
    requires TookInOrder(BOTH, before, BOTH[k..], after, passed + Listed(answer), k)
    requires Answers(result, answer, 2)
    ensures BOTH[k..] + passed == [SECOND, FIRST]
  {
    assert k == 1 && passed + Listed(answer) == [FIRST];
  }

  lemma FirstSends(client: JsonRpcClient)
    requires client.nextId == 1 && client.written == 0
    requires AllWell(client.writes, |client.socket.incoming| + 2)
    ensures client.Sends(NOTHING_TO_SAY)
  {
  }

  lemma SecondSends(client: JsonRpcClient)
    requires client.nextId == 2 && client.written <= |client.socket.incoming| + 1
    requires AllWell(client.writes, |client.socket.incoming| + 2)
    ensures client.Sends(NOTHING_TO_SAY)
  {
  }

  /** A request without a queue leaves there what it passed over. */
  method AskFromScratch(client: JsonRpcClient, clock: seq<bool>)
    returns (result: Reply, ghost answer: Option<Message>, ghost left: seq<Reception>)
    requires client.Valid() && client.IdsIncrease() && client.pending == [] && client.Sends(NOTHING_TO_SAY)
    requires client.nextId < U64_MAX && client.socket.Flowing()
    modifies client, client.socket
    ensures client.Valid() && client.IdsIncrease() && client.nextId == old(client.nextId) + 1
    ensures |client.usedIds| == |old(client.usedIds)| + 1
    ensures client.written <= |client.socket.incoming| + |client.usedIds|
    ensures Decided(old(client.InboxAt(client.written + 1)), old(client.nextId), clock,
                    Waited(result, client.pending, answer, left))
  {
    hide *;
    ghost var queue, passed, k := client.pending, [], 0;
    result, answer, passed, k := client.Request(NOTHING_TO_SAY, clock);
    left := Queued(queue[k..]) + client.ArrivingAt(client.written, client.arrivals);
    assert client.pending == passed;
    client.WritesBounded();
  }

  /** A request during which both texts arrive leaves them in order. */
  method AskFirst(client: JsonRpcClient)
    requires client.Valid() && client.IdsIncrease() && client.pending == [] && client.nextId == 1
    requires client.written == 0 && client.usedIds == []
    requires client.socket.Flowing() && AllWell(client.writes, |client.socket.incoming| + 2)
    requires client.InboxAt(1) == Queued(BOTH)
    modifies client, client.socket
    ensures client.Valid() && client.IdsIncrease()
    ensures client.pending == BOTH && client.nextId == 2 && client.Sends(NOTHING_TO_SAY)
  {
    assert U64_MAX > 1;
    hide *;
    FirstSends(client);
    var result;
    ghost var answer, left, inbox := None, [], client.InboxAt(client.written + 1);
    result, answer, left := AskFromScratch(client, TWO_TURNS);
    BothPassedOver(inbox, Waited(result, client.pending, answer, left));
    SecondSends(client);
  }

  /** A second request, whose time is over after the first of the queued messages, leaves the later one in front. */
  method AskSecond(client: JsonRpcClient)
    requires client.Valid() && client.IdsIncrease()
    requires client.pending == BOTH && client.nextId == 2 && client.Sends(NOTHING_TO_SAY)
    modifies client, client.socket
    ensures client.pending == [SECOND, FIRST]
  {
    hide *;
    var result;
    ghost var answer, passed, k;
    ghost var before := client.Messages();
    result, answer, passed, k := client.Request(NOTHING_TO_SAY, ONE_TURN);
    OnePassedOver(before, client.Messages(), result, passed, answer, k);
  }

  lemma OutOfOrder(queue: seq<Message>)
    requires queue == [SECOND, FIRST]
    ensures !Ordered(queue)
  {
    assert queue[0].place > queue[1].place;
  }

  /** Two messages that arrive in order end up in the wrong order in the queue. */
  method QueueLosesOrder() returns (client: JsonRpcClient)
    ensures client.pending == [SECOND, FIRST] && !Ordered(client.pending)
  {
    hide *;
    client := TwoTexts();
    AskFirst(client);
    AskSecond(client);
    OutOfOrder(client.pending);
  }
}
