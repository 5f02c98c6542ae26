/** Messages and their framing: a big-endian size, a big-endian id, and the payload. */
module Transport {
  import opened Core

  newtype Byte = x: int | 0 <= x < 256

  datatype RpcMessage =
    | HelloMessage(version: nat, machineId: string, name: string)
    | ScreensMessage(infos: seq<ScreenInfo>)
    | InputMessage(event: InputEvent)
    | PingMessage(pingPad: nat)
    | PongMessage(pongPad: nat)
    | ErrorMessage(text: string)

  datatype Kind = HelloKind | ScreensKind | InputKind | PingKind | PongKind | ErrorKind

  function KindOf(m: RpcMessage): Kind {
    match m
    case HelloMessage(_, _, _) => HelloKind
    case ScreensMessage(_) => ScreensKind
    case InputMessage(_) => InputKind
    case PingMessage(_) => PingKind
    case PongMessage(_) => PongKind
    case ErrorMessage(_) => ErrorKind
  }

  function IdOf(k: Kind): nat {
    match k
    case HelloKind => 0
    case ScreensKind => 1
    case InputKind => 2
    case PingKind => 3
    case PongKind => 4
    case ErrorKind => 0xFFFF
  }

  const KINDS := [HelloKind, ScreensKind, InputKind, PingKind, PongKind, ErrorKind]

  /** The first alternative of the message type that has the id. */
  function FindById(id: nat, kinds: seq<Kind>): Option<Kind> {
    if kinds == [] then None
    else if IdOf(kinds[0]) == id then Some(kinds[0])
    else FindById(id, kinds[1..])
  }

  lemma {:induction false} FindByIdFinds(id: nat, k: Kind, kinds: seq<Kind>)
    ensures FindById(id, kinds) == Some(k) <==> k in kinds && IdOf(k) == id
  {
    if kinds != [] {
      FindByIdFinds(id, k, kinds[1..]);
    }
  }

  /** Ids and message types correspond one to one. */
  lemma FindByIdIsInverse(id: nat, k: Kind)
    ensures FindById(id, KINDS) == Some(k) <==> IdOf(k) == id
  {
    FindByIdFinds(id, k, KINDS);
    assert KINDS[0] == HelloKind && KINDS[1] == ScreensKind && KINDS[2] == InputKind
        && KINDS[3] == PingKind && KINDS[4] == PongKind && KINDS[5] == ErrorKind;
  }

  /** The payload serializer, which is not modelled further: either direction may fail. */
  datatype Codec = Codec(encode: RpcMessage -> Option<seq<Byte>>, decode: (Kind, seq<Byte>) -> Option<RpcMessage>)

  /** What was encoded decodes to the same message. */
  ghost predicate RoundTrips(codec: Codec) {
    forall m :: codec.encode(m).Some? ==> codec.decode(KindOf(m), codec.encode(m).value) == Some(m)
  }

  datatype RpcError = MessageTooLarge | UnknownMessageType | EndOfStream | StreamFailed

  const MAX_PAYLOAD := 65535

  function U16(n: nat): seq<Byte>
    requires n < 0x1_0000
  {
    [(n / 256) as Byte, (n % 256) as Byte]
  }

  function FromU16(s: seq<Byte>): nat
    requires |s| == 2
  {
    (s[0] as nat) * 256 + s[1] as nat
  }

  function WriteError(codec: Codec, m: RpcMessage): Option<RpcError> {
    match codec.encode(m)
    case None => Some(UnknownMessageType)
    case Some(payload) => if MAX_PAYLOAD < |payload| then Some(MessageTooLarge) else None
  }

  /** The bytes of one message on the wire. */
  function Frame(codec: Codec, m: RpcMessage): (f: seq<Byte>)
    requires WriteError(codec, m).None?
    ensures |f| == 4 + |codec.encode(m).value|
  {
    var payload := codec.encode(m).value;
    U16(|payload|) + U16(IdOf(KindOf(m))) + payload
  }

  datatype ReadOutcome =
    | Incomplete
    | Complete(consumed: nat, message: Option<RpcMessage>)

  /** One read: the header, that many bytes, then the payload of the type the id names. */
  function ReadFrame(codec: Codec, bytes: seq<Byte>): ReadOutcome {
    if |bytes| < 4 then Incomplete
    else
      var size := FromU16(bytes[..2]);
      if |bytes| < 4 + size then Incomplete
      else
        Complete(4 + size,
                 match FindById(FromU16(bytes[2..4]), KINDS)
                 case None => None
                 case Some(kind) => codec.decode(kind, bytes[4..4 + size]))
  }

  lemma U16RoundTrip(n: nat)
    requires n < 0x1_0000
    ensures FromU16(U16(n)) == n
  {
  }

  /** A number as two bytes, the larger one first. */
  ghost predicate BigEndian(bytes: seq<Byte>, n: nat) {
    |bytes| == 2 && n == 256 * (bytes[0] as nat) + bytes[1] as nat
  }

  /** What goes over the wire: the size, the number of the message type, and the payload. */
  lemma FrameInBytes(codec: Codec, m: RpcMessage)
    requires WriteError(codec, m).None?
    ensures var f, payload := Frame(codec, m), codec.encode(m).value;
            && |f| == 4 + |payload| && f[4..] == payload && BigEndian(f[..2], |payload|)
            && (m.HelloMessage? ==> f[2..4] == [0, 0]) && (m.ScreensMessage? ==> f[2..4] == [0, 1])
            && (m.InputMessage? ==> f[2..4] == [0, 2]) && (m.PingMessage? ==> f[2..4] == [0, 3])
            && (m.PongMessage? ==> f[2..4] == [0, 4]) && (m.ErrorMessage? ==> f[2..4] == [255, 255])
  {
  }

  /** What can be framed: a payload of at most 65535 bytes; else the error says why not. */
  lemma FramedExactlyWhen(codec: Codec, m: RpcMessage)
    ensures WriteError(codec, m).None? <==> codec.encode(m).Some? && |codec.encode(m).value| <= 65535
    ensures WriteError(codec, m) == Some(UnknownMessageType) <==> codec.encode(m).None?
    ensures WriteError(codec, m) == Some(MessageTooLarge) <==> codec.encode(m).Some? && 65535 < |codec.encode(m).value|
  {
  }

  /**
   * What any bytes read as: nothing until the header and as many bytes as it announces are
   * there; then those are consumed, and give a message exactly if the type is known and
   * its payload decodes.
   */
  lemma ReadInBytes(codec: Codec, bytes: seq<Byte>, size: nat, id: nat)
    requires 4 <= |bytes| ==> BigEndian(bytes[..2], size) && BigEndian(bytes[2..4], id)
    ensures ReadFrame(codec, bytes).Incomplete? <==> |bytes| < 4 || |bytes| < 4 + size
    ensures 4 <= |bytes| && 4 + size <= |bytes| ==>
              && ReadFrame(codec, bytes).consumed == 4 + size
              && (forall k :: IdOf(k) == id ==> ReadFrame(codec, bytes).message == codec.decode(k, bytes[4..4 + size]))
              && ((forall k :: IdOf(k) != id) ==> ReadFrame(codec, bytes).message.None?)
  {
    forall k ensures FindById(id, KINDS) == Some(k) <==> IdOf(k) == id {
      FindByIdIsInverse(id, k);
    }
  }

  /** A frame followed by anything reads back as its message, consuming exactly the frame. */
  lemma ReadOwnFrame(codec: Codec, m: RpcMessage, rest: seq<Byte>)
    requires RoundTrips(codec) && WriteError(codec, m).None?
    ensures ReadFrame(codec, Frame(codec, m) + rest) == Complete(|Frame(codec, m)|, Some(m))
  {
    var payload := codec.encode(m).value;
    var bytes := Frame(codec, m) + rest;
    U16RoundTrip(|payload|);
    U16RoundTrip(IdOf(KindOf(m)));
    FindByIdIsInverse(IdOf(KindOf(m)), KindOf(m));
    assert bytes[..2] == U16(|payload|);
    assert bytes[2..4] == U16(IdOf(KindOf(m)));
    assert bytes[4..4 + |payload|] == payload;
  }

  /** Part of a frame is never mistaken for a message. */
  lemma PartialFrameIncomplete(codec: Codec, m: RpcMessage, n: nat)
    requires WriteError(codec, m).None? && n < |Frame(codec, m)|
    ensures ReadFrame(codec, Frame(codec, m)[..n]) == Incomplete
  {
    var payload := codec.encode(m).value;
    U16RoundTrip(|payload|);
    if 4 <= n {
      assert Frame(codec, m)[..n][..2] == U16(|payload|);
    }
  }

  /** Whatever the id and the payload, a read consumes 4 bytes and the size they announce. */
  lemma ReadConsumesAnnounced(codec: Codec, bytes: seq<Byte>)
    ensures match ReadFrame(codec, bytes)
            case Incomplete => |bytes| < 4 || |bytes| < 4 + FromU16(bytes[..2])
            case Complete(n, _) => 4 <= |bytes| && n == 4 + FromU16(bytes[..2]) <= |bytes|
  {
  }

  function Frames(codec: Codec, ms: seq<RpcMessage>): seq<Byte>
    requires forall m :: m in ms ==> WriteError(codec, m).None?
  {
    if ms == [] then [] else Frame(codec, ms[0]) + Frames(codec, ms[1..])
  }

  /** Read n messages; the rest of the bytes comes back with them. */
  function ReadMany(codec: Codec, bytes: seq<Byte>, n: nat): (seq<Option<RpcMessage>>, seq<Byte>)
  {
    if n == 0 then ([], bytes)
    else
      match ReadFrame(codec, bytes)
      case Incomplete => ([], bytes)
      case Complete(consumed, m) =>
        ReadConsumesAnnounced(codec, bytes);
        var (ms, rest) := ReadMany(codec, bytes[consumed..], n - 1);
        ([m] + ms, rest)
  }

  function Somes(ms: seq<RpcMessage>): (r: seq<Option<RpcMessage>>)
    ensures |r| == |ms| && forall i :: 0 <= i < |ms| ==> r[i] == Some(ms[i])
  {
    seq(|ms|, i requires 0 <= i < |ms| => Some(ms[i]))
  }

  /** Reading the concatenated frames of any messages gives exactly those messages and leaves what follows. */
  lemma {:induction false} FramesReadBack(codec: Codec, ms: seq<RpcMessage>, rest: seq<Byte>)
    requires RoundTrips(codec) && forall m :: m in ms ==> WriteError(codec, m).None?
    ensures ReadMany(codec, Frames(codec, ms) + rest, |ms|) == (Somes(ms), rest)
  {
    hide Frame, ReadFrame, RoundTrips, WriteError;
    if ms == [] {
      assert Frames(codec, ms) + rest == rest;
    } else {
      var f, tail := Frame(codec, ms[0]), Frames(codec, ms[1..]) + rest;
      assert Frames(codec, ms) + rest == f + tail;
      ReadOwnFrame(codec, ms[0], tail);
      assert (f + tail)[|f|..] == tail;
      FramesReadBack(codec, ms[1..], rest);
      assert [Some(ms[0])] + Somes(ms[1..]) == Somes(ms);
    }
  }

  lemma {:induction false} FramesAppend(codec: Codec, ms: seq<RpcMessage>, m: RpcMessage)
    requires forall x :: x in ms + [m] ==> WriteError(codec, x).None?
    ensures forall x :: x in ms ==> WriteError(codec, x).None?
    ensures WriteError(codec, m).None?
    ensures Frames(codec, ms + [m]) == Frames(codec, ms) + Frame(codec, m)
  {
    assert forall x :: x in ms ==> x in ms + [m];
    assert m in ms + [m];
    if ms == [] {
      assert ms + [m] == [m];
      assert Frames(codec, [m]) == Frame(codec, m) + [];
    } else {
      assert (ms + [m])[1..] == ms[1..] + [m];
      assert (ms + [m])[0] == ms[0];
      FramesAppend(codec, ms[1..], m);
    }
  }

  // ----- A stream that may fail -----

  /** Does a stream with that much room take n more bytes? One that never fails has none to give. */
  predicate Takes(room: Option<nat>, n: nat) {
    room.None? || n <= room.value
  }

  /** What of the bytes gets onto the stream. */
  function Taken(room: Option<nat>, bytes: seq<Byte>): seq<Byte> {
    if Takes(room, |bytes|) then bytes else bytes[..room.value]
  }

  function RoomAfter(room: Option<nat>, n: nat): Option<nat> {
    match room
    case None => None
    case Some(r) => Some(if n <= r then r - n else 0)
  }

  /** As many bytes as there is room for, from the start. */
  lemma TakenIsPrefix(room: Option<nat>, bytes: seq<Byte>)
    ensures room.None? ==> Taken(room, bytes) == bytes
    ensures room.Some? ==> Taken(room, bytes) == bytes[..if room.value < |bytes| then room.value else |bytes|]
  {
  }

  /** Writing in two parts, the second only if the first was taken, is writing the whole. */
  lemma TakenInParts(room: Option<nat>, a: seq<Byte>, b: seq<Byte>)
    ensures Takes(room, |a + b|) <==> Takes(room, |a|) && Takes(RoomAfter(room, |a|), |b|)
    ensures Taken(room, a + b) == Taken(room, a) + (if Takes(room, |a|) then Taken(RoomAfter(room, |a|), b) else [])
  {
  }

  // ----- The object -----

  /** Both directions of a connected byte stream. */
  class RpcTransport {
    var incoming: seq<Byte>
    var outgoing: seq<Byte>
    /** How many more bytes the stream takes before it fails; none if it does not fail. */
    var room: Option<nat>
    const codec: Codec

    constructor (codec: Codec, room: Option<nat>)
      ensures incoming == [] && outgoing == [] && this.codec == codec && this.room == room
    {
      incoming, outgoing := [], [];
      this.codec := codec;
      this.room := room;
    }

    method WriteAll(bytes: seq<Byte>) returns (ok: bool)
      modifies `outgoing, `room
      ensures ok <==> Takes(old(room), |bytes|)
      ensures outgoing == old(outgoing) + Taken(old(room), bytes) && room == RoomAfter(old(room), |bytes|)
    {
      ok := Takes(room, |bytes|);
      outgoing := outgoing + Taken(room, bytes);
      room := RoomAfter(room, |bytes|);
    }

    /** The two fields of the header, one after the other. */
    method WriteHeader(size: nat, kind: Kind) returns (ok: bool)
      requires size <= MAX_PAYLOAD
      modifies `outgoing, `room
      ensures ok <==> Takes(old(room), 4)
      ensures outgoing == old(outgoing) + Taken(old(room), U16(size) + U16(IdOf(kind)))
      ensures ok ==> room == RoomAfter(old(room), 4)
    {
      TakenInParts(room, U16(size), U16(IdOf(kind)));
      ok := WriteAll(U16(size));
      if ok {
        ok := WriteAll(U16(IdOf(kind)));
      }
    }

    /** Nothing is written unless the whole message can be framed; of a frame, as much as the stream takes. */
    method WriteMessage(message: RpcMessage) returns (error: Option<RpcError>)
      modifies `outgoing, `room
      ensures match WriteError(codec, message)
              case Some(e) => error == Some(e) && outgoing == old(outgoing)
              case None =>
                && error == (if Takes(old(room), |Frame(codec, message)|) then None else Some(StreamFailed))
                && outgoing == old(outgoing) + Taken(old(room), Frame(codec, message))
    {
      var buffer := codec.encode(message);
      if buffer.None? {
        return Some(UnknownMessageType);
      }
      if |buffer.value| > MAX_PAYLOAD {
        return Some(MessageTooLarge);
      }
      TakenInParts(room, U16(|buffer.value|) + U16(IdOf(KindOf(message))), buffer.value);
      var ok := WriteHeader(|buffer.value|, KindOf(message));
      if ok {
        ok := WriteAll(buffer.value);
      }
      return if ok then None else Some(StreamFailed);
    }

    method ReadU16Be() returns (n: nat)
      requires 2 <= |incoming|
      modifies `incoming
      ensures n == FromU16(old(incoming)[..2]) && incoming == old(incoming)[2..]
    {
      n := (incoming[0] as nat) * 256 + incoming[1] as nat;
      incoming := incoming[2..];
    }

    /** One message; at the end of the stream nothing that is left can be read. */
    method ReadMessage() returns (message: Option<RpcMessage>, error: Option<RpcError>)
      modifies `incoming
      ensures match ReadFrame(codec, old(incoming))
              case Incomplete => error == Some(EndOfStream) && message.None?
              case Complete(n, m) =>
                && n <= |old(incoming)| && incoming == old(incoming)[n..]
                && message == m && error == (if m.None? then Some(UnknownMessageType) else None)
    {
      ReadConsumesAnnounced(codec, incoming);
      if |incoming| < 4 {
        return None, Some(EndOfStream);
      }
      var size := ReadU16Be();
      var id := ReadU16Be();
      assert old(incoming)[2..][..2] == old(incoming)[2..4];
      if |incoming| < size {
        return None, Some(EndOfStream);
      }
      var buffer := incoming[..size];
      incoming := incoming[size..];
      assert buffer == old(incoming)[4..4 + size];
      var kind := FindById(id, KINDS);
      if kind.None? {
        return None, Some(UnknownMessageType);
      }
      message := codec.decode(kind.value, buffer);
      error := if message.None? then Some(UnknownMessageType) else None;
    }
  }
}
