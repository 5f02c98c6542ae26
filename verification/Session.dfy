/** One accepted connection: hello, then reports and the writer until something ends it. */
module Session {
  import opened Core
  import opened Config
  import opened Screens
  import opened Input
  import opened Transport
  import opened Server

  datatype Phase = AwaitingHello | Serving | Ending

  datatype Session = Session(
    phase: Phase,
    first: Option<RpcMessage>,  // the first message, once there is one
    ownerId: string,
    writing: bool)              // the writer has published its queue

  const NEW_SESSION := Session(AwaitingHello, None, "", false)

  /** The first message was a hello of a client the configuration trusts. */
  predicate TrustedHello(trusted: seq<TrustedClient>, s: Session) {
    && s.first.Some? && s.first.value.HelloMessage?
    && IsTrustedClient(trusted, s.first.value.machineId, s.first.value.name)
  }

  // ----- What each step does to the session and to the desk -----

  /** Anything but a trusted hello ends the session. */
  function Greet(config: AppConfig, s: Session, e: Endpoint, m: RpcMessage, format: Endpoint -> string): Session {
    var seen := s.(first := Some(m));
    if !m.HelloMessage? then seen.(phase := Ending)
    else
      seen.(ownerId := OwnerOf(m.machineId, e, format),
            phase := if TrustedHello(config.trustedClients, seen) then Serving else Ending)
  }

  /** The owner is noted before trust is looked at. */
  function GreetDesk(d: Desk, e: Endpoint, m: RpcMessage, format: Endpoint -> string): Desk {
    if !m.HelloMessage? then d
    else d.(store := d.store.(owners := d.store.owners[e := OwnerOf(m.machineId, e, format)]))
  }

  function ReceiveDesk(d: Desk, e: Endpoint, s: Session, m: RpcMessage): Desk {
    if m.ScreensMessage? then ReplaceScreens(d, e, s.ownerId, m.infos, false, false) else d
  }

  function OpenQueue(d: Desk, e: Endpoint): Desk {
    d.(channels := d.channels[e := Channel([], true)])
  }

  predicate HasQueued(d: Desk, e: Endpoint) {
    e in d.channels && d.channels[e].queue != []
  }

  function PopQueue(d: Desk, e: Endpoint): Desk
    requires HasQueued(d, e)
  {
    d.(channels := d.channels[e := d.channels[e].(queue := d.channels[e].queue[1..])])
  }

  /** The writer is gone: its queue takes nothing more. */
  function ShutQueue(d: Desk, e: Endpoint): Desk {
    if e in d.channels then d.(channels := d.channels[e := d.channels[e].(open := false)]) else d
  }

  // ----- The object -----

  class ServerSession {
    const server: Server
    const mEndpoint: Endpoint
    var mOwnerId: string
    var phase: Phase
    var writing: bool
    ghost var first: Option<RpcMessage>

    ghost function Model(): Session
      reads this
    {
      Session(phase, first, mOwnerId, writing)
    }

    constructor (server: Server, endpoint: Endpoint)
      ensures Model() == NEW_SESSION && this.server == server && mEndpoint == endpoint
    {
      this.server := server;
      mEndpoint := endpoint;
      mOwnerId, phase, writing, first := "", AwaitingHello, false, None;
    }

    method Handshake(message: RpcMessage) returns (ok: bool)
      requires server.Valid() && phase == AwaitingHello
      modifies this, server.mScreens
      ensures server.Valid() && ok == (phase == Serving)
      ensures Model() == Greet(old(server.Model()).store.config, old(Model()), mEndpoint, message, server.mScreens.format)
      ensures server.Model() == GreetDesk(old(server.Model()), mEndpoint, message, server.mScreens.format)
      // the machine id is the owner, an endpoint only stands in for a missing one
      ensures message.HelloMessage? && message.machineId != "" ==> mOwnerId == message.machineId
      ensures message.HelloMessage? && message.machineId == "" ==> mOwnerId == server.mScreens.format(mEndpoint)
      ensures message.HelloMessage? ==>
                server.Model().store.owners == old(server.Model()).store.owners[mEndpoint := mOwnerId]
    {
      first := Some(message);
      if !message.HelloMessage? {
        phase := Ending;
        return false;
      }
      mOwnerId := if message.machineId == "" then server.mScreens.format(mEndpoint) else message.machineId;
      server.mScreens.RememberOwner(mEndpoint, mOwnerId);
      if !IsTrustedClient(server.mScreens.mConfig.trustedClients, message.machineId, message.name) {
        phase := Ending;
        return false;
      }
      phase := Serving;
      return true;
    }

    /** One turn of the read loop. */
    method HandleMessage(message: RpcMessage)
      requires server.Valid() && phase == Serving
      modifies server.mInput, server.mScreens, server.mScreens.mTopology, server.mClientSenders, server.mInput.mCapture
      ensures server.Valid()
      ensures server.Model() == ReceiveDesk(old(server.Model()), mEndpoint, Model(), message)
    {
      if message.ScreensMessage? {
        server.RegisterScreens(mEndpoint, mOwnerId, message.infos, false, false);
      }
    }

    /** The writer's first act is to publish a fresh queue. */
    method StartWriter()
      requires server.Valid() && phase == Serving
      modifies this, server.mClientSenders
      ensures server.Valid() && Model() == old(Model()).(writing := true)
      ensures server.Model() == OpenQueue(old(server.Model()), mEndpoint)
      // whatever was queued under the endpoint before is gone
      ensures server.mClientSenders.channels == old(server.mClientSenders.channels)[mEndpoint := Channel([], true)]
    {
      server.mClientSenders.channels := server.mClientSenders.channels[mEndpoint := Channel([], true)];
      writing := true;
    }

    /** One turn of the write loop: a message that cannot be framed, or a stream that fails, ends the session. */
    method WriteNext(transport: RpcTransport)
      requires server.Valid() && phase == Serving && HasQueued(server.Model(), mEndpoint)
      modifies this, server.mClientSenders, transport`outgoing, transport`room
      ensures server.Valid()
      ensures var m := InputMessage(old(server.Model()).channels[mEndpoint].queue[0]);
              var framed := WriteError(transport.codec, m).None?;
              var ok := framed && Takes(old(transport.room), |Frame(transport.codec, m)|);
              var popped := PopQueue(old(server.Model()), mEndpoint);
              && server.Model() == (if ok then popped else ShutQueue(popped, mEndpoint))
              && Model() == (if ok then old(Model()) else old(Model()).(phase := Ending))
              && transport.outgoing == old(transport.outgoing)
                 + (if framed then Taken(old(transport.room), Frame(transport.codec, m)) else [])
    {
      var channel := server.mClientSenders.channels[mEndpoint];
      var rest := channel.(queue := channel.queue[1..]);
      server.mClientSenders.channels := server.mClientSenders.channels[mEndpoint := rest];
      var error := transport.WriteMessage(InputMessage(channel.queue[0]));
      if error.Some? {
        EndLoops();
      }
    }

    method EndLoops()
      requires server.Valid()
      modifies this, server.mClientSenders
      ensures server.Valid() && Model() == old(Model()).(phase := Ending)
      ensures server.Model() == ShutQueue(old(server.Model()), mEndpoint)
    {
      if mEndpoint in server.mClientSenders.channels {
        var channel := server.mClientSenders.channels[mEndpoint];
        server.mClientSenders.channels := server.mClientSenders.channels[mEndpoint := channel.(open := false)];
      }
      phase := Ending;
    }

    /** The guard of the session: runs on every way out. */
    method Close()
      requires server.Valid()
      modifies server.mInput, server.mScreens, server.mScreens.mTopology, server.mClientSenders, server.mInput.mCapture
      ensures server.Valid()
      ensures server.Model() == CloseEndpoint(old(server.Model()), mEndpoint)
    {
      server.OnClosed(mEndpoint);
    }
  }
}
