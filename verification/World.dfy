/**
 * The whole system as a transition system: any number of sessions with distinct
 * endpoints, the router, the writers, the byte streams and the clients, interleaved in
 * any order. What holds in every state of every run.
 */
module World {
  import opened Core
  import opened Config
  import opened Screens
  import opened Input
  import opened InputLaws
  import opened Transport
  import opened Pipeline
  import opened Server
  import opened Session
  import opened DeskLaws

  /** What does not change during a run. */
  datatype Setting = Setting(
    host: Endpoint,
    hostOwner: string,
    trusted: seq<TrustedClient>,
    format: Endpoint -> string,
    codec: Codec)

  /** A connected peer; the id tells this connection from others of the same endpoint. */
  datatype Peer = Peer(id: nat, session: Session)

  datatype World = World(
    desk: Desk,
    peers: map<Endpoint, Peer>,
    links: map<nat, Link>,      // one per connection ever made
    nextId: nat)

  datatype Step =
    | Connect(e: Endpoint)
    | FirstMessage(e: Endpoint, message: RpcMessage)
    | LaterMessage(e: Endpoint, message: RpcMessage)
    | StartWriter(e: Endpoint)
    | WriteNext(e: Endpoint)
    | BreakWrite(e: Endpoint, written: nat)   // the stream fails within a frame
    | EndLoops(e: Endpoint)                   // a read fails, or the session is cancelled
    | Close(e: Endpoint)
    | Arrive(id: nat, bytes: nat)
    | ClientReads(id: nat, injectOk: bool)
    | Captured(event: InputEvent, warpOk: bool)
    | DetachCapture

  predicate InPhase(w: World, e: Endpoint, phase: Phase) {
    e in w.peers && w.peers[e].session.phase == phase
  }

  predicate Writable(w: World, e: Endpoint) {
    InPhase(w, e, Serving) && w.peers[e].session.writing && HasQueued(w.desk, e) && w.peers[e].id in w.links
  }

  predicate Enabled(c: Setting, w: World, s: Step) {
    match s
    case Connect(e) => e !in w.peers && e != c.host
    case FirstMessage(e, _) => InPhase(w, e, AwaitingHello)
    case LaterMessage(e, _) => InPhase(w, e, Serving)
    case StartWriter(e) => InPhase(w, e, Serving) && !w.peers[e].session.writing
    case WriteNext(e) => Writable(w, e)
    case BreakWrite(e, n) =>
      && Writable(w, e)
      && var m := InputMessage(w.desk.channels[e].queue[0]);
         WriteError(c.codec, m).None? && n < |Frame(c.codec, m)|
    case EndLoops(e) => e in w.peers
    case Close(e) => e in w.peers
    case Arrive(id, n) => id in w.links && w.links[id].arrived + n <= |w.links[id].wire|
    case ClientReads(id, _) =>
      id in w.links && w.links[id].reading && w.links[id].consumed <= w.links[id].arrived <= |w.links[id].wire|
    case Captured(_, _) => true
    case DetachCapture => true
  }

  function WithSession(w: World, e: Endpoint, s: Session): World
    requires e in w.peers
  {
    w.(peers := w.peers[e := w.peers[e].(session := s)])
  }

  function EndSession(w: World, e: Endpoint): World
    requires e in w.peers
  {
    WithSession(w.(desk := ShutQueue(w.desk, e)), e, w.peers[e].session.(phase := Ending))
  }

  /** The writer takes the next event and gets n bytes of its frame onto the wire. */
  function Written(c: Setting, w: World, e: Endpoint, n: nat): World
    requires Writable(w, e)
    requires var m := InputMessage(w.desk.channels[e].queue[0]);
             WriteError(c.codec, m).None? && n <= |Frame(c.codec, m)|
  {
    var id := w.peers[e].id;
    w.(desk := PopQueue(w.desk, e),
       links := w.links[id := WriteFirst(c.codec, w.links[id], w.desk.channels[e].queue[0], n)])
  }

  /** An event just accepted for an endpoint is put on the account of its connection. */
  function Credit(w: World, desk: Desk): World {
    if |desk.history.delivered| == |w.desk.history.delivered| + 1
       && desk.history.delivered[|w.desk.history.delivered|].target.screen.endpoint in w.peers
       && w.peers[desk.history.delivered[|w.desk.history.delivered|].target.screen.endpoint].id in w.links then
      var latest := desk.history.delivered[|w.desk.history.delivered|];
      var id := w.peers[latest.target.screen.endpoint].id;
      w.(desk := desk, links := w.links[id := Accept(w.links[id], latest.event)])
    else w.(desk := desk)
  }

  function Connected(w: World, e: Endpoint): World {
    w.(peers := w.peers[e := Peer(w.nextId, NEW_SESSION)],
       links := w.links[w.nextId := IDLE_LINK],
       nextId := w.nextId + 1)
  }

  function Greeted(c: Setting, w: World, e: Endpoint, m: RpcMessage): World
    requires e in w.peers
  {
    WithSession(w.(desk := GreetDesk(w.desk, e, m, c.format)), e,
                Greet(w.desk.store.config, w.peers[e].session, e, m, c.format))
  }

  function Received(w: World, e: Endpoint, m: RpcMessage): World
    requires e in w.peers
  {
    w.(desk := ReceiveDesk(w.desk, e, w.peers[e].session, m))
  }

  function WriterStarted(w: World, e: Endpoint): World
    requires e in w.peers
  {
    WithSession(w.(desk := OpenQueue(w.desk, e)), e, w.peers[e].session.(writing := true))
  }

  /** One turn of the writer: a message that cannot be framed ends the session. */
  function WroteNext(c: Setting, w: World, e: Endpoint): World
    requires Writable(w, e)
  {
    var m := InputMessage(w.desk.channels[e].queue[0]);
    if WriteError(c.codec, m).Some? then EndSession(w.(desk := PopQueue(w.desk, e)), e)
    else Written(c, w, e, |Frame(c.codec, m)|)
  }

  function Closed(w: World, e: Endpoint): World {
    w.(desk := CloseEndpoint(w.desk, e), peers := w.peers - {e})
  }

  function Apply(c: Setting, w: World, s: Step): World
    requires Enabled(c, w, s)
  {
    match s
    case Connect(e) => Connected(w, e)
    case FirstMessage(e, m) => Greeted(c, w, e, m)
    case LaterMessage(e, m) => Received(w, e, m)
    case StartWriter(e) => WriterStarted(w, e)
    case WriteNext(e) => WroteNext(c, w, e)
    case BreakWrite(e, n) => EndSession(Written(c, w, e, n), e)
    case EndLoops(e) => EndSession(w, e)
    case Close(e) => Closed(w, e)
    case Arrive(id, n) => w.(links := w.links[id := Pipeline.Arrive(w.links[id], n)])
    case ClientReads(id, ok) => w.(links := w.links[id := ClientRead(c.codec, w.links[id], ok)])
    case Captured(event, warpOk) => Credit(w, Handle(w.desk, event, warpOk))
    case DetachCapture => w.(desk := SetCapture(w.desk, false))
  }

  function Start(c: Setting, config: AppConfig, infos: seq<ScreenInfo>): World {
    World(Boot(config, c.host, c.hostOwner, infos), map[], map[], 0)
  }

  /** A run: states and the steps between them. */
  ghost predicate IsRun(c: Setting, config: AppConfig, infos: seq<ScreenInfo>, steps: seq<Step>, states: seq<World>) {
    && config.trustedClients == c.trusted
    && |states| == |steps| + 1
    && states[0] == Start(c, config, infos)
    && forall i :: 0 <= i < |steps| ==> Enabled(c, states[i], steps[i]) && states[i + 1] == Apply(c, states[i], steps[i])
  }

  // ----- The invariant -----

  /** Connections are told apart and accounted for; phases say what has been heard. */
  ghost predicate PeersOk(c: Setting, w: World) {
    && w.desk.store.config.trustedClients == c.trusted
    && c.host !in w.peers
    && (forall e :: e in w.peers ==> w.peers[e].id in w.links && PeerOk(c, w.peers[e].session))
    && (forall e, f :: e in w.peers && f in w.peers && e != f ==> w.peers[e].id != w.peers[f].id)
    && (forall id :: id in w.links ==> id < w.nextId)
  }

  ghost predicate Trusts(c: Setting, s: Session) {
    TrustedHello(c.trusted, s)
  }

  ghost predicate PeerOk(c: Setting, s: Session) {
    && (s.phase == AwaitingHello ==> s.first.None? && !s.writing)
    && (s.phase == Serving || s.writing ==> Trusts(c, s))
  }

  /** Local nodes are the host's; every other node belongs to a peer that said a trusted hello. */
  ghost predicate NodeOk(c: Setting, w: World, n: Node) {
    && (n.screen.local <==> n.screen.endpoint == c.host)
    && (n.screen.local ==> n.screen.key.ownerId == c.hostOwner)
    && (!n.screen.local ==>
          && n.screen.endpoint in w.peers
          && Trusts(c, w.peers[n.screen.endpoint].session)
          && n.screen.key.ownerId == w.peers[n.screen.endpoint].session.ownerId)
  }

  ghost predicate NodesPlaced(c: Setting, w: World) {
    forall n :: n in w.desk.store.nodes ==> NodeOk(c, w, n)
  }

  /** A queue exists exactly where a writer has published one, takes events while it is served, and never overflows. */
  ghost predicate QueuesOk(c: Setting, w: World) {
    && (forall e :: e in w.desk.channels ==>
          && e in w.peers
          && w.peers[e].session.writing
          && (w.desk.channels[e].open <==> w.peers[e].session.phase == Serving)
          && |w.desk.channels[e].queue| <= CAPACITY)
    && (forall e :: e in w.peers && w.peers[e].session.writing ==> e in w.desk.channels)
  }

  predicate SaidHello(s: Session) {
    s.first.Some? && s.first.value.HelloMessage?
  }

  /** Owner notes are kept exactly for the peers that said hello, trusted or not, and are their sessions' owners. */
  ghost predicate OwnersOk(c: Setting, w: World) {
    && (forall e :: e in w.desk.store.owners ==> e in w.peers && SaidHello(w.peers[e].session))
    && (forall e :: e in w.peers && SaidHello(w.peers[e].session) ==> e in w.desk.store.owners && OwnerNoted(c, w, e))
  }

  ghost predicate OwnerNoted(c: Setting, w: World, e: Endpoint)
    requires e in w.peers && SaidHello(w.peers[e].session) && e in w.desk.store.owners
  {
    var s := w.peers[e].session;
    w.desk.store.owners[e] == s.ownerId == OwnerOf(s.first.value.machineId, e, c.format)
  }

  ghost predicate LinksOk(c: Setting, w: World) {
    forall id :: id in w.links ==> LinkOk(c.codec, w.links[id])
  }

  /** While a session is served nothing is lost: what was accepted is what was sent and what is queued. */
  ghost predicate FlowOk(c: Setting, w: World) {
    forall e :: e in w.peers && w.peers[e].id in w.links && w.peers[e].session.phase != Ending ==>
      PeerFlow(c, w.links[w.peers[e].id], if e in w.desk.channels then w.desk.channels[e].queue else [])
  }

  ghost predicate PeerFlow(c: Setting, l: Link, queue: seq<InputEvent>) {
    Whole(c.codec, l) && l.accepted == l.sent + queue
  }

  ghost predicate HomeOk(w: World) {
    HasLocal(w.desk.store.nodes) ==> w.desk.active.Some?
  }

  /** Who is where. */
  ghost predicate Placed(c: Setting, w: World) {
    DeskOk(w.desk) && HomeOk(w) && PeersOk(c, w) && NodesPlaced(c, w) && OwnersOk(c, w)
  }

  /** All that does not depend on the bytes on the streams. */
  ghost predicate Orderly(c: Setting, w: World) {
    Placed(c, w) && QueuesOk(c, w)
  }

  ghost predicate Inv(c: Setting, w: World) {
    Orderly(c, w) && LinksOk(c, w) && FlowOk(c, w)
  }

  // ----- Who was sent what -----

  /** Of the deliveries, the events that were for the endpoint. */
  function EventsFor(delivered: seq<Delivery>, e: Endpoint): seq<InputEvent> {
    if delivered == [] then []
    else
      var last := delivered[|delivered| - 1];
      EventsFor(delivered[..|delivered| - 1], e) + (if last.target.screen.endpoint == e then [last.event] else [])
  }

  /** The endpoint's session is the one on this connection. */
  predicate LiveOn(w: World, e: Endpoint, id: nat) {
    e in w.peers && w.peers[e].id == id
  }
}
