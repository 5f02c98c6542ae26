/**
 * One session's path from the router's accepted events to the client's injector: the
 * writer, the byte stream, and the read loop, each taking steps of its own.
 */
module Pipeline {
  import opened Core
  import opened Transport
  import opened Client

  datatype Link = Link(
    accepted: seq<InputEvent>,  // taken by the router's try-send
    sent: seq<InputEvent>,      // taken from the queue by the writer
    wire: seq<Byte>,            // written to the stream
    arrived: nat,               // how many of those bytes the client has got
    consumed: nat,              // how many it has read
    readCount: nat,                 // in how many messages
    client: Injected,
    reading: bool)

  const IDLE_LINK := Link([], [], [], 0, 0, 0, Injected([], None), true)

  function Inputs(events: seq<InputEvent>): (r: seq<RpcMessage>)
    ensures |r| == |events| && forall i :: 0 <= i < |events| ==> r[i] == InputMessage(events[i])
  {
    seq(|events|, i requires 0 <= i < |events| => InputMessage(events[i]))
  }

  // ----- Steps -----

  function Accept(l: Link, event: InputEvent): Link {
    l.(accepted := l.accepted + [event])
  }

  /** The writer writes the frame of the next event, or dies after n bytes of it. */
  function WriteFirst(codec: Codec, l: Link, event: InputEvent, n: nat): Link
    requires WriteError(codec, InputMessage(event)).None? && n <= |Frame(codec, InputMessage(event))|
  {
    l.(sent := l.sent + [event], wire := l.wire + Frame(codec, InputMessage(event))[..n])
  }

  function Arrive(l: Link, n: nat): Link
    requires l.arrived + n <= |l.wire|
  {
    l.(arrived := l.arrived + n)
  }

  function ClientRead(codec: Codec, l: Link, injectOk: bool): Link
    requires l.consumed <= l.arrived <= |l.wire|
  {
    match ReadFrame(codec, l.wire[l.consumed..l.arrived])
    case Incomplete => l
    case Complete(n, None) => l.(consumed := l.consumed + n, readCount := l.readCount + 1, reading := false)
    case Complete(n, Some(m)) =>
      var (after, goOn) := Consume(l.client, m, injectOk);
      l.(consumed := l.consumed + n, readCount := l.readCount + 1, client := after, reading := goOn)
  }

  // ----- Invariant -----

  ghost predicate Encodable(codec: Codec, events: seq<InputEvent>) {
    forall m :: m in Inputs(events) ==> WriteError(codec, m).None?
  }

  /** What has been written is a part of the frames of what was sent, from the start. */
  ghost predicate WireOk(codec: Codec, l: Link) {
    Encodable(codec, l.sent) && l.wire <= Frames(codec, Inputs(l.sent))
  }

  /** The client stands at a frame boundary, and has injected what it read unless its last message stopped it. */
  ghost predicate ReaderOk(codec: Codec, l: Link) {
    && l.consumed <= l.arrived <= |l.wire|
    && l.readCount <= |l.sent|
    && Encodable(codec, l.sent[..l.readCount])
    && l.consumed == |Frames(codec, Inputs(l.sent[..l.readCount]))|
    && |l.client.events| <= l.readCount
    && l.client.events == l.sent[..|l.client.events|]
    && (l.reading ==> |l.client.events| == l.readCount)
  }

  ghost predicate LinkOk(codec: Codec, l: Link) {
    l.sent <= l.accepted && WireOk(codec, l) && ReaderOk(codec, l)
  }

  /** The writer is at a frame boundary. */
  ghost predicate Whole(codec: Codec, l: Link) {
    Encodable(codec, l.sent) && l.wire == Frames(codec, Inputs(l.sent))
  }

  lemma InputsOfPrefix(events: seq<InputEvent>, n: nat)
    requires n <= |events|
    ensures Inputs(events[..n]) == Inputs(events)[..n] && Inputs(events[n..]) == Inputs(events)[n..]
  {
  }

  lemma InputsAppend(events: seq<InputEvent>, event: InputEvent)
    ensures Inputs(events + [event]) == Inputs(events) + [InputMessage(event)]
  {
  }

  lemma {:induction false} FramesSplit(codec: Codec, ms: seq<RpcMessage>, n: nat)
    requires n <= |ms| && forall m :: m in ms ==> WriteError(codec, m).None?
    ensures Frames(codec, ms) == Frames(codec, ms[..n]) + Frames(codec, ms[n..])
  {
    if n == 0 {
      assert ms[..0] == [] && ms[0..] == ms;
      assert Frames(codec, ms) == [] + Frames(codec, ms);
    } else {
      assert forall m :: m in ms[1..] ==> m in ms;
      FramesSplit(codec, ms[1..], n - 1);
      assert ms[1..][..n - 1] == ms[..n][1..] && ms[1..][n - 1..] == ms[n..];
      assert ms[..n][0] == ms[0];
    }
  }

  /** More bytes do not change a read that was already complete. */
  lemma ReadIsMonotone(codec: Codec, bytes: seq<Byte>, more: seq<Byte>)
    requires bytes <= more && ReadFrame(codec, bytes).Complete?
    ensures ReadFrame(codec, more) == ReadFrame(codec, bytes)
  {
    assert more[..2] == bytes[..2] && more[2..4] == bytes[2..4];
    var size := FromU16(bytes[..2]);
    assert more[4..4 + size] == bytes[4..4 + size];
  }

  /** From a frame boundary, a complete read of what has arrived yields exactly the next event sent. */
  lemma NextReadIsNextSent(codec: Codec, l: Link)
    requires RoundTrips(codec) && LinkOk(codec, l)
    requires ReadFrame(codec, l.wire[l.consumed..l.arrived]).Complete?
    ensures l.readCount < |l.sent|
    ensures WriteError(codec, InputMessage(l.sent[l.readCount])).None?
    ensures ReadFrame(codec, l.wire[l.consumed..l.arrived])
         == Complete(|Frame(codec, InputMessage(l.sent[l.readCount]))|, Some(InputMessage(l.sent[l.readCount])))
  {
    var ms := Inputs(l.sent);
    FramesSplit(codec, ms, l.readCount);
    InputsOfPrefix(l.sent, l.readCount);
    var all, tail := Frames(codec, ms), Frames(codec, ms[l.readCount..]);
    var seen := l.wire[l.consumed..l.arrived];
    assert all[l.consumed..] == tail;
    assert seen <= tail;
    ReadConsumesAnnounced(codec, seen);
    assert l.readCount < |ms|;
    assert ms[l.readCount] == InputMessage(l.sent[l.readCount]) && ms[l.readCount] in ms;
    assert tail == Frame(codec, ms[l.readCount]) + Frames(codec, ms[l.readCount..][1..]);
    ReadOwnFrame(codec, ms[l.readCount], Frames(codec, ms[l.readCount..][1..]));
    ReadIsMonotone(codec, seen, tail);
  }

  // ----- Every step keeps the invariant -----

  lemma AcceptKeeps(codec: Codec, l: Link, event: InputEvent)
    requires LinkOk(codec, l)
    ensures LinkOk(codec, Accept(l, event)) && (Whole(codec, l) ==> Whole(codec, Accept(l, event)))
  {
  }

  lemma WriteKeeps(codec: Codec, l: Link, event: InputEvent, n: nat)
    requires LinkOk(codec, l) && Whole(codec, l) && l.sent + [event] <= l.accepted
    requires WriteError(codec, InputMessage(event)).None? && n <= |Frame(codec, InputMessage(event))|
    ensures LinkOk(codec, WriteFirst(codec, l, event, n))
    ensures n == |Frame(codec, InputMessage(event))| ==> Whole(codec, WriteFirst(codec, l, event, n))
  {
    InputsAppend(l.sent, event);
    FramesAppend(codec, Inputs(l.sent), InputMessage(event));
    var f := Frame(codec, InputMessage(event));
    assert f[..|f|] == f;
    assert (l.sent + [event])[..l.readCount] == l.sent[..l.readCount];
    assert (l.sent + [event])[..|l.client.events|] == l.sent[..|l.client.events|];
  }

  lemma ArriveKeeps(codec: Codec, l: Link, n: nat)
    requires LinkOk(codec, l) && l.arrived + n <= |l.wire|
    ensures LinkOk(codec, Arrive(l, n)) && (Whole(codec, l) ==> Whole(codec, Arrive(l, n)))
  {
  }

  lemma ClientReadKeeps(codec: Codec, l: Link, injectOk: bool)
    requires RoundTrips(codec) && LinkOk(codec, l) && l.reading
    ensures LinkOk(codec, ClientRead(codec, l, injectOk))
    ensures Whole(codec, l) ==> Whole(codec, ClientRead(codec, l, injectOk))
  {
    var r := ClientRead(codec, l, injectOk);
    if ReadFrame(codec, l.wire[l.consumed..l.arrived]).Complete? {
      NextReadIsNextSent(codec, l);
      BoundaryMoves(codec, l.sent, l.readCount);
      ReadConsumesAnnounced(codec, l.wire[l.consumed..l.arrived]);
      assert l.sent[..l.readCount] + [l.sent[l.readCount]] == l.sent[..l.readCount + 1];
    }
  }

  /**
   * What a turn of the client does: once a whole frame is there it injects the next event
   * sent, if the injector does, and goes on exactly if it did; before that it waits.
   */
  lemma ClientReadInjects(codec: Codec, l: Link, injectOk: bool)
    requires RoundTrips(codec) && LinkOk(codec, l) && l.reading
    ensures var r := ClientRead(codec, l, injectOk);
            if ReadFrame(codec, l.wire[l.consumed..l.arrived]).Incomplete? then r == l
            else
              && l.readCount < |l.sent|
              && r.client.events == l.client.events + (if injectOk then [l.sent[l.readCount]] else [])
              && r.reading == injectOk && r.readCount == l.readCount + 1
              && r.accepted == l.accepted && r.sent == l.sent && r.wire == l.wire && r.arrived == l.arrived
  {
    hide WireOk, Encodable, ReadFrame;
    if ReadFrame(codec, l.wire[l.consumed..l.arrived]).Complete? {
      NextReadIsNextSent(codec, l);
    }
  }

  /** A frame that has arrived whole can be read. */
  lemma ArrivedFrameIsRead(codec: Codec, l: Link)
    requires RoundTrips(codec) && LinkOk(codec, l) && Whole(codec, l) && l.readCount < |l.sent|
    ensures WriteError(codec, InputMessage(l.sent[l.readCount])).None?
    ensures l.consumed + |Frame(codec, InputMessage(l.sent[l.readCount]))| <= l.arrived ==>
              ReadFrame(codec, l.wire[l.consumed..l.arrived]).Complete?
  {
    hide Frame, RoundTrips, ReadFrame, WriteError;
    var ms, m := Inputs(l.sent), InputMessage(l.sent[l.readCount]);
    assert ms[l.readCount] == m && m in ms;
    FramesSplit(codec, ms, l.readCount);
    InputsOfPrefix(l.sent, l.readCount);
    var f, tail := Frame(codec, m), Frames(codec, ms[l.readCount..][1..]);
    assert l.wire[l.consumed..] == f + tail;
    if l.consumed + |f| <= l.arrived {
      ReadOwnFrame(codec, m, l.wire[l.consumed..l.arrived][|f|..]);
      assert l.wire[l.consumed..l.arrived] == f + l.wire[l.consumed..l.arrived][|f|..];
    }
  }

  lemma {:induction false} EventsInInputs(events: seq<InputEvent>)
    ensures EventsIn(Inputs(events)) == events
    decreases |events|
  {
    if events != [] {
      InputsOfPrefix(events, 1);
      EventsInInputs(events[1..]);
    }
  }

  /**
   * The read loop over whole frames of events: all are injected and the client goes on, or
   * all up to the first that the injector refuses, and it stops.
   */
  lemma InputsAreInjected(codec: Codec, events: seq<InputEvent>, rest: seq<Byte>, c: Injected, oks: seq<bool>, k: nat)
    requires RoundTrips(codec) && Encodable(codec, events) && k <= |events| == |oks|
    requires (forall i :: 0 <= i < k ==> oks[i]) && (k < |events| ==> !oks[k])
    ensures var (r, goesOn) := ReadLoop(codec, Frames(codec, Inputs(events)) + rest, c, oks);
            r.events == c.events + events[..k] && (goesOn <==> k == |events|)
  {
    hide ReadLoop, Frames, RoundTrips, WriteError;
    var ms := Inputs(events);
    EventsInInputs(events[..k]);
    InputsOfPrefix(events, k);
    if k < |events| {
      StopsAtFirstRefusal(codec, ms, rest, c, oks, k);
    } else {
      assert events[..k] == events;
      EverythingIsInjected(codec, ms, rest, c, oks);
    }
  }

  lemma UnreadHasBytes(codec: Codec, l: Link)
    requires LinkOk(codec, l) && Whole(codec, l) && l.readCount < |l.sent|
    ensures l.consumed < |l.wire|
  {
    FramesSplit(codec, Inputs(l.sent), l.readCount);
    InputsOfPrefix(l.sent, l.readCount);
    var rest := Inputs(l.sent)[l.readCount..];
    assert rest[0] in Inputs(l.sent);
    assert |Frames(codec, rest)| >= |Frame(codec, rest[0])|;
  }

  /** A client that has not been stopped, and has read all that was written, has injected all that was sent. */
  lemma CaughtUp(codec: Codec, l: Link)
    requires LinkOk(codec, l) && Whole(codec, l) && l.reading && l.consumed == |l.wire|
    ensures l.client.events == l.sent
  {
    hide Whole, WireOk;
    if l.readCount < |l.sent| {
      UnreadHasBytes(codec, l);
    } else {
      assert l.sent[..|l.sent|] == l.sent;
    }
  }

  lemma BoundaryMoves(codec: Codec, sent: seq<InputEvent>, n: nat)
    requires n < |sent| && Encodable(codec, sent)
    ensures Encodable(codec, sent[..n]) && Encodable(codec, sent[..n + 1])
    ensures WriteError(codec, InputMessage(sent[n])).None?
    ensures |Frames(codec, Inputs(sent[..n + 1]))|
         == |Frames(codec, Inputs(sent[..n]))| + |Frame(codec, InputMessage(sent[n]))|
  {
    InputsOfPrefix(sent, n);
    InputsOfPrefix(sent, n + 1);
    assert Inputs(sent)[n] in Inputs(sent);
    assert sent[..n + 1] == sent[..n] + [sent[n]];
    InputsAppend(sent[..n], sent[n]);
    FramesAppend(codec, Inputs(sent[..n]), InputMessage(sent[n]));
  }

  /** At every moment the client has injected a prefix of what was sent, itself a prefix of what was accepted. */
  lemma InjectedIsPrefixOfAccepted(codec: Codec, l: Link)
    requires LinkOk(codec, l)
    ensures l.client.events <= l.sent <= l.accepted
  {
    var n := |l.client.events|;
    assert l.client.events == l.sent[..n] == l.accepted[..n];
  }
}
