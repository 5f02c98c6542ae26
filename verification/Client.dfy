/** The client: reads messages and injects input events one by one, stopping at the first failure. */
module Client {
  import opened Core
  import opened Transport

  /** What the client has injected, in order, and the screen of its last mouse move. */
  datatype Injected = Injected(events: seq<InputEvent>, lastScreen: Option<nat>)

  /** One message; the flag says whether the injector would carry the event out. The answer is whether to go on. */
  function Consume(c: Injected, m: RpcMessage, injectOk: bool): (Injected, bool) {
    if !m.InputMessage? then (c, true)
    else if !injectOk then (c, false)
    else
      (Injected(c.events + [m.event], if m.event.MoveEvent? then Some(m.event.move.screenIndex) else c.lastScreen), true)
  }

  /** The read loop, for as many messages as there are injector outcomes. */
  function ReadLoop(codec: Codec, bytes: seq<Byte>, c: Injected, injectOks: seq<bool>): (Injected, bool)
    decreases |injectOks|
  {
    if injectOks == [] then (c, true)
    else
      match ReadFrame(codec, bytes)
      case Incomplete => (c, false)
      case Complete(_, None) => (c, false)
      case Complete(n, Some(m)) =>
        ReadConsumesAnnounced(codec, bytes);
        var (after, goOn) := Consume(c, m, injectOks[0]);
        if goOn then ReadLoop(codec, bytes[n..], after, injectOks[1..]) else (after, false)
  }

  // ----- What the loop amounts to -----

  /** The events of the input messages, in order. */
  function EventsIn(ms: seq<RpcMessage>): seq<InputEvent> {
    if ms == [] then [] else (if ms[0].InputMessage? then [ms[0].event] else []) + EventsIn(ms[1..])
  }

  /** The injector would carry out every event up to message n. */
  ghost predicate AllInjected(ms: seq<RpcMessage>, oks: seq<bool>, n: nat)
    requires n <= |ms| == |oks|
  {
    forall i :: 0 <= i < n && ms[i].InputMessage? ==> oks[i]
  }

  predicate NoMoves(events: seq<InputEvent>) {
    forall i :: 0 <= i < |events| ==> !events[i].MoveEvent?
  }

  ghost predicate LastMoveAt(events: seq<InputEvent>, i: nat) {
    i < |events| && events[i].MoveEvent? && forall j :: i < j < |events| ==> !events[j].MoveEvent?
  }

  /** The screen of the last mouse move, if any of the events is one, else what it was before. */
  ghost predicate LastMoveOn(events: seq<InputEvent>, before: Option<nat>, after: Option<nat>) {
    && (NoMoves(events) ==> after == before)
    && (forall i: nat :: LastMoveAt(events, i) ==> after == Some(events[i].move.screenIndex))
  }

  /** From one state to the other the client has injected just these events. */
  ghost predicate Took(c: Injected, events: seq<InputEvent>, r: Injected) {
    r.events == c.events + events && LastMoveOn(events, c.lastScreen, r.lastScreen)
  }

  /** Having injected what the message holds, if it is an input event. */
  function Having(c: Injected, m: RpcMessage): Injected {
    if !m.InputMessage? then c
    else Injected(c.events + [m.event], if m.event.MoveEvent? then Some(m.event.move.screenIndex) else c.lastScreen)
  }

  /** One whole message at the head of the stream is read, and the loop goes on behind it unless injecting failed. */
  lemma ReadsOne(codec: Codec, m: RpcMessage, rest: seq<Byte>, c: Injected, oks: seq<bool>)
    requires RoundTrips(codec) && WriteError(codec, m).None? && oks != []
    ensures ReadLoop(codec, Frame(codec, m) + rest, c, oks)
         == if m.InputMessage? && !oks[0] then (c, false) else ReadLoop(codec, rest, Having(c, m), oks[1..])
  {
    hide Frame, ReadFrame, RoundTrips, WriteError;
    ReadOwnFrame(codec, m, rest);
    assert (Frame(codec, m) + rest)[|Frame(codec, m)|..] == rest;
  }

  /**
   * Whole frames of any messages, followed by anything: as long as the injector carries
   * out what it is given, every event is injected, in order, other messages are skipped,
   * and the client goes on.
   */
  lemma {:induction false} EverythingIsInjected(codec: Codec, ms: seq<RpcMessage>, rest: seq<Byte>, c: Injected,
                                                oks: seq<bool>)
    requires RoundTrips(codec) && forall m :: m in ms ==> WriteError(codec, m).None?
    requires |oks| == |ms| && AllInjected(ms, oks, |ms|)
    ensures ReadLoop(codec, Frames(codec, ms) + rest, c, oks).1
    ensures Took(c, EventsIn(ms), ReadLoop(codec, Frames(codec, ms) + rest, c, oks).0)
    decreases |ms|
  {
    hide Frame, ReadFrame, WriteError, ReadLoop, RoundTrips, Took, Having;
    if ms == [] {
      NothingTaken(codec, Frames(codec, ms) + rest, c);
    } else {
      var m, front := ms[0], Frames(codec, ms[1..]) + rest;
      assert forall x :: x in ms[1..] ==> x in ms;
      assert Frames(codec, ms) + rest == Frame(codec, m) + front;
      ReadsOne(codec, m, front, c, oks);
      EverythingIsInjected(codec, ms[1..], rest, Having(c, m), oks[1..]);
      TookOneMore(c, m, EventsIn(ms[1..]), ReadLoop(codec, front, Having(c, m), oks[1..]).0);
    }
  }

  lemma NothingTaken(codec: Codec, bytes: seq<Byte>, c: Injected)
    ensures ReadLoop(codec, bytes, c, []) == (c, true) && Took(c, [], c)
  {
  }

  lemma TookOneMore(c: Injected, m: RpcMessage, events: seq<InputEvent>, r: Injected)
    requires Took(Having(c, m), events, r)
    ensures Took(c, (if m.InputMessage? then [m.event] else []) + events, r)
  {
    hide LastMoveOn;
    if m.InputMessage? {
      LastMoveOneMore(m.event, events, c.lastScreen, r.lastScreen);
    } else {
      assert [] + events == events;
    }
  }

  lemma LastMoveShifts(event: InputEvent, events: seq<InputEvent>, i: nat)
    ensures NoMoves([event] + events) ==> !event.MoveEvent? && NoMoves(events)
    ensures LastMoveAt([event] + events, 0) ==> event.MoveEvent? && NoMoves(events)
    ensures 0 < i && LastMoveAt([event] + events, i) ==> LastMoveAt(events, i - 1)
  {
    var all := [event] + events;
    assert all[0] == event && forall j :: 0 <= j < |events| ==> all[j + 1] == events[j];
  }

  lemma LastMoveOneMore(event: InputEvent, events: seq<InputEvent>, before: Option<nat>, after: Option<nat>)
    requires LastMoveOn(events, if event.MoveEvent? then Some(event.move.screenIndex) else before, after)
    ensures LastMoveOn([event] + events, before, after)
  {
    hide NoMoves, LastMoveAt;
    LastMoveShifts(event, events, 0);
    forall i: nat | LastMoveAt([event] + events, i)
      ensures i < |[event] + events| && ([event] + events)[i].MoveEvent?
      ensures after == Some(([event] + events)[i].move.screenIndex)
    {
      LastMoveShifts(event, events, i);
      LastMoveIsMove([event] + events, i);
    }
  }

  lemma LastMoveIsMove(events: seq<InputEvent>, i: nat)
    requires LastMoveAt(events, i)
    ensures i < |events| && events[i].MoveEvent?
  {
  }

  /** The first event the injector refuses stops the client: what came before is injected, and nothing after. */
  lemma {:induction false} StopsAtFirstRefusal(codec: Codec, ms: seq<RpcMessage>, rest: seq<Byte>, c: Injected,
                                               oks: seq<bool>, k: nat)
    requires RoundTrips(codec) && forall m :: m in ms ==> WriteError(codec, m).None?
    requires k < |ms| == |oks| && AllInjected(ms, oks, k) && ms[k].InputMessage? && !oks[k]
    ensures var (r, goesOn) := ReadLoop(codec, Frames(codec, ms) + rest, c, oks);
            !goesOn && r.events == c.events + EventsIn(ms[..k])
    decreases |ms|
  {
    hide Frame, ReadFrame, WriteError, ReadLoop, RoundTrips;
    var m, front := ms[0], Frames(codec, ms[1..]) + rest;
    assert forall x :: x in ms[1..] ==> x in ms;
    assert Frames(codec, ms) + rest == Frame(codec, m) + front;
    ReadsOne(codec, m, front, c, oks);
    if 0 < k {
      assert ms[1..][..k - 1] == ms[..k][1..] && ms[..k][0] == m;
      StopsAtFirstRefusal(codec, ms[1..], rest, Having(c, m), oks[1..], k - 1);
    }
  }

  /** At the end of the stream, or at a message that makes no sense, the client stops with what it has. */
  lemma StopsAtTheEnd(codec: Codec, bytes: seq<Byte>, c: Injected, oks: seq<bool>)
    requires oks != []
    requires ReadFrame(codec, bytes).Incomplete? || ReadFrame(codec, bytes).message.None?
    ensures ReadLoop(codec, bytes, c, oks) == (c, false)
  {
  }

  class Client {
    var mLastInjectedMouseScreen: Option<nat>
    /** What the injector has been given, in order. */
    ghost var injected: seq<InputEvent>

    constructor ()
      ensures Model() == Injected([], None)
    {
      mLastInjectedMouseScreen := None;
      injected := [];
    }

    ghost function Model(): Injected
      reads this
    {
      Injected(injected, mLastInjectedMouseScreen)
    }

    method HandleMessage(message: RpcMessage, injectOk: bool) returns (ok: bool)
      modifies this
      ensures (Model(), ok) == Consume(old(Model()), message, injectOk)
    {
      if message.InputMessage? {
        if !injectOk {
          return false;
        }
        injected := injected + [message.event];
        if message.event.MoveEvent? {
          mLastInjectedMouseScreen := Some(message.event.move.screenIndex);
        }
        return true;
      }
      return true;
    }

    method HandleRead(transport: RpcTransport, injectOks: seq<bool>) returns (running: bool)
      modifies this, transport`incoming
      ensures (Model(), running) == ReadLoop(transport.codec, old(transport.incoming), old(Model()), injectOks)
    {
      for i := 0 to |injectOks|
        invariant ReadLoop(transport.codec, transport.incoming, Model(), injectOks[i..])
               == ReadLoop(transport.codec, old(transport.incoming), old(Model()), injectOks)
      {
        assert injectOks[i..][1..] == injectOks[i + 1..];
        var message, error := transport.ReadMessage();
        if error.Some? {
          return false;
        }
        var ok := HandleMessage(message.value, injectOks[i]);
        if !ok {
          return false;
        }
      }
      return true;
    }
  }
}
