/** Every step of the system keeps the invariant, so every state of every run satisfies it. */
module WorldLaws {
  import opened Core
  import opened Config
  import opened Screens
  import opened StoreLaws
  import opened Input
  import opened InputLaws
  import opened Transport
  import opened Pipeline
  import opened Server
  import opened Session
  import opened DeskLaws
  import opened World

  // ----- What carries over -----

  /** A node stays well placed while its peer's first message and owner stay as they were. */
  lemma NodesCarry(c: Setting, w: World, r: World)
    requires NodesPlaced(c, w)
    requires forall n :: n in r.desk.store.nodes ==> n in w.desk.store.nodes
    requires forall n :: n in r.desk.store.nodes && n.screen.endpoint in w.peers ==>
               && n.screen.endpoint in r.peers
               && r.peers[n.screen.endpoint].session.first == w.peers[n.screen.endpoint].session.first
               && r.peers[n.screen.endpoint].session.ownerId == w.peers[n.screen.endpoint].session.ownerId
    ensures NodesPlaced(c, r)
  {
    forall n | n in r.desk.store.nodes ensures NodeOk(c, r, n) {
      assert NodeOk(c, w, n);
    }
  }

  /** A peer's flow stays well while its link and its queue stay as they were. */
  lemma FlowCarries(c: Setting, w: World, r: World, changed: set<Endpoint>)
    requires FlowOk(c, w)
    requires forall f :: f in r.peers && f !in changed ==>
               && f in w.peers && r.peers[f].id == w.peers[f].id
               && (r.peers[f].session.phase != Ending ==> w.peers[f].session.phase != Ending)
               && (r.peers[f].id in r.links ==>
                     r.peers[f].id in w.links && r.links[r.peers[f].id] == w.links[r.peers[f].id])
               && (f in r.desk.channels <==> f in w.desk.channels)
               && (f in r.desk.channels ==> r.desk.channels[f].queue == w.desk.channels[f].queue)
    requires forall f :: f in changed && f in r.peers && r.peers[f].id in r.links && r.peers[f].session.phase != Ending ==>
               PeerFlow(c, r.links[r.peers[f].id], if f in r.desk.channels then r.desk.channels[f].queue else [])
    ensures FlowOk(c, r)
  {
    hide PeerFlow;
    forall f | f in r.peers && r.peers[f].id in r.links && r.peers[f].session.phase != Ending
      ensures PeerFlow(c, r.links[r.peers[f].id], if f in r.desk.channels then r.desk.channels[f].queue else [])
    {
      if f !in changed {
        assert PeerFlow(c, w.links[w.peers[f].id], if f in w.desk.channels then w.desk.channels[f].queue else []);
      }
    }
  }

  /** Peers stay told apart when one session changes, or the desk does, or one link does. */
  lemma PeersCarry(c: Setting, w: World, e: Endpoint, s: Session, d: Desk, id: nat, l: Link)
    requires PeersOk(c, w) && e in w.peers && PeerOk(c, s) && id in w.links
    requires d.store.config.trustedClients == w.desk.store.config.trustedClients
    ensures PeersOk(c, WithSession(w.(desk := d), e, s)) && PeersOk(c, w.(desk := d))
    ensures PeersOk(c, w.(desk := d, links := w.links[id := l]))
    ensures PeersOk(c, w.(links := w.links[id := l]))
  {
    hide PeerOk;
  }

  lemma QuietPeer(c: Setting, w: World, e: Endpoint)
    requires FlowOk(c, w) && e in w.peers && w.peers[e].id in w.links
    requires w.peers[e].session.phase != Ending && e !in w.desk.channels
    ensures PeerFlow(c, w.links[w.peers[e].id], [])
  {
  }

  lemma BusyPeer(c: Setting, w: World, e: Endpoint)
    requires FlowOk(c, w) && e in w.peers && w.peers[e].id in w.links
    requires w.peers[e].session.phase != Ending && e in w.desk.channels
    ensures PeerFlow(c, w.links[w.peers[e].id], w.desk.channels[e].queue)
  {
  }

  /** Owner notes stay right while those that said hello, and what is noted of them, stay as they were. */
  lemma OwnersCarry(c: Setting, w: World, r: World, e: Endpoint)
    requires OwnersOk(c, w)
    requires forall f :: f != e ==>
               && (f in r.peers <==> f in w.peers) && (f in r.desk.store.owners <==> f in w.desk.store.owners)
    requires forall f :: f != e && f in r.peers ==>
               && r.peers[f].session.first == w.peers[f].session.first
               && r.peers[f].session.ownerId == w.peers[f].session.ownerId
    requires forall f :: f != e && f in r.desk.store.owners ==> r.desk.store.owners[f] == w.desk.store.owners[f]
    requires e in r.desk.store.owners <==> e in r.peers && SaidHello(r.peers[e].session)
    requires e in r.desk.store.owners ==> OwnerNoted(c, r, e)
    ensures OwnersOk(c, r)
  {
    hide OwnerOf;
    forall f | f in r.peers && SaidHello(r.peers[f].session) ensures f in r.desk.store.owners && OwnerNoted(c, r, f) {
      if f != e {
        assert SaidHello(w.peers[f].session) && OwnerNoted(c, w, f);
      }
    }
  }

  lemma OwnersUntouched(c: Setting, w: World, r: World)
    requires OwnersOk(c, w) && r.desk.store.owners == w.desk.store.owners && r.peers.Keys == w.peers.Keys
    requires forall f :: f in r.peers ==>
               && r.peers[f].session.first == w.peers[f].session.first
               && r.peers[f].session.ownerId == w.peers[f].session.ownerId
    ensures OwnersOk(c, r)
  {
    hide OwnerOf;
    forall f | f in r.peers && SaidHello(r.peers[f].session) ensures f in r.desk.store.owners && OwnerNoted(c, r, f) {
      assert SaidHello(w.peers[f].session) && OwnerNoted(c, w, f);
    }
  }

  // ----- A new connection -----

  lemma ConnectPeers(c: Setting, w: World, e: Endpoint)
    requires PeersOk(c, w) && e !in w.peers && e != c.host
    ensures PeersOk(c, Connected(w, e))
  {
    hide PeerOk;
    NewSessionOk(c);
  }

  lemma NewSessionOk(c: Setting)
    ensures PeerOk(c, NEW_SESSION)
  {
  }

  lemma IdleLinkOk(c: Setting)
    ensures LinkOk(c.codec, IDLE_LINK) && PeerFlow(c, IDLE_LINK, [])
  {
  }

  lemma ConnectFlows(c: Setting, w: World, e: Endpoint)
    requires PeersOk(c, w) && QueuesOk(c, w) && LinksOk(c, w) && FlowOk(c, w) && e !in w.peers
    ensures LinksOk(c, Connected(w, e)) && FlowOk(c, Connected(w, e))
  {
    hide FlowOk, PeerFlow, LinkOk, PeerOk, Accepts;
    assert e !in w.desk.channels;
    IdleLinkOk(c);
    FlowCarries(c, w, Connected(w, e), {e});
  }

  lemma ConnectQueues(c: Setting, w: World, e: Endpoint)
    requires QueuesOk(c, w) && e !in w.peers
    ensures QueuesOk(c, Connected(w, e))
  {
  }

  lemma ConnectOwners(c: Setting, w: World, e: Endpoint)
    requires OwnersOk(c, w) && e !in w.peers
    ensures OwnersOk(c, Connected(w, e))
  {
    OwnersCarry(c, w, Connected(w, e), e);
  }

  lemma ConnectKeeps(c: Setting, w: World, e: Endpoint)
    requires Orderly(c, w) && e !in w.peers && e != c.host
    ensures Orderly(c, Connected(w, e))
  {
    hide DeskOk, PeersOk, NodesPlaced, QueuesOk, OwnersOk, HasLocal;
    ConnectPeers(c, w, e);
    ConnectQueues(c, w, e);
    ConnectOwners(c, w, e);
    NodesCarry(c, w, Connected(w, e));
  }

  // ----- The stream and the client -----

  lemma OneLinkChanged(c: Setting, w: World, id: nat, l: Link)
    requires Orderly(c, w) && id in w.links
    ensures Orderly(c, w.(links := w.links[id := l]))
  {
    hide DeskOk, PeerOk, NodesPlaced, HasLocal, OwnersOk;
    NodesCarry(c, w, w.(links := w.links[id := l]));
    OwnersUntouched(c, w, w.(links := w.links[id := l]));
  }

  /** A link that stays well, whole and at the same account keeps the flow. */
  lemma OneLinkFlows(c: Setting, w: World, id: nat, l: Link)
    requires LinksOk(c, w) && FlowOk(c, w) && id in w.links && LinkOk(c.codec, l)
    requires Whole(c.codec, w.links[id]) ==> Whole(c.codec, l)
    requires l.accepted == w.links[id].accepted && l.sent == w.links[id].sent
    ensures var r := w.(links := w.links[id := l]); LinksOk(c, r) && FlowOk(c, r)
  {
    hide LinkOk, Whole;
  }

  lemma ArriveFlows(c: Setting, w: World, id: nat, n: nat)
    requires LinksOk(c, w) && FlowOk(c, w) && id in w.links && w.links[id].arrived + n <= |w.links[id].wire|
    ensures var r := w.(links := w.links[id := Pipeline.Arrive(w.links[id], n)]); LinksOk(c, r) && FlowOk(c, r)
  {
    hide LinkOk, Whole, FlowOk;
    ArriveKeeps(c.codec, w.links[id], n);
    OneLinkFlows(c, w, id, Pipeline.Arrive(w.links[id], n));
  }

  lemma ClientReadsFlows(c: Setting, w: World, id: nat, ok: bool)
    requires RoundTrips(c.codec) && LinksOk(c, w) && FlowOk(c, w) && id in w.links && w.links[id].reading
    requires w.links[id].consumed <= w.links[id].arrived <= |w.links[id].wire|
    ensures var r := w.(links := w.links[id := ClientRead(c.codec, w.links[id], ok)]); LinksOk(c, r) && FlowOk(c, r)
  {
    hide LinkOk, Whole, FlowOk;
    ClientReadKeeps(c.codec, w.links[id], ok);
    OneLinkFlows(c, w, id, ClientRead(c.codec, w.links[id], ok));
  }

  // ----- The writer -----

  lemma DeskApart(d: Desk, channels: map<Endpoint, Channel>)
    requires DeskOk(d)
    ensures DeskOk(d.(channels := channels))
  {
  }

  /** A session that changes only in phase and writing, and a desk that changes only in its queues. */
  lemma SessionStep(c: Setting, w: World, r: World, e: Endpoint, s: Session, id: nat, l: Link)
    requires Placed(c, w) && e in w.peers && PeerOk(c, s) && id in w.links
    requires s.first == w.peers[e].session.first && s.ownerId == w.peers[e].session.ownerId
    requires r == WithSession(w.(desk := w.desk.(channels := r.desk.channels), links := w.links[id := l]), e, s)
    ensures Placed(c, r)
  {
    hide DeskOk, PeerOk, NodesPlaced, HasLocal, OwnersOk;
    DeskApart(w.desk, r.desk.channels);
    NodesCarry(c, w, r);
    OwnersUntouched(c, w, r);
  }

  lemma PeerHasSession(c: Setting, w: World, e: Endpoint)
    requires PeersOk(c, w) && e in w.peers
    ensures w.peers[e].id in w.links && PeerOk(c, w.peers[e].session)
    ensures PeerOk(c, w.peers[e].session.(phase := Ending))
    ensures w.peers[e].session.phase == Serving ==> PeerOk(c, w.peers[e].session.(writing := true))
  {
  }

  lemma StartWriterFlows(c: Setting, w: World, e: Endpoint)
    requires PeersOk(c, w) && QueuesOk(c, w) && LinksOk(c, w) && FlowOk(c, w)
    requires InPhase(w, e, Serving) && !w.peers[e].session.writing
    ensures LinksOk(c, WriterStarted(w, e)) && FlowOk(c, WriterStarted(w, e))
  {
    hide FlowOk, PeerFlow, LinkOk, PeerOk;
    assert e !in w.desk.channels;
    QuietPeer(c, w, e);
    FlowCarries(c, w, WriterStarted(w, e), {e});
  }

  lemma StartWriterQueues(c: Setting, w: World, e: Endpoint)
    requires QueuesOk(c, w) && InPhase(w, e, Serving)
    ensures QueuesOk(c, WriterStarted(w, e))
  {
  }

  lemma StartWriterKeeps(c: Setting, w: World, e: Endpoint)
    requires Orderly(c, w) && InPhase(w, e, Serving)
    ensures Orderly(c, WriterStarted(w, e))
  {
    hide PeerOk, QueuesOk, DeskOk, NodesPlaced, HasLocal, OwnersOk;
    StartWriterQueues(c, w, e);
    PeerHasSession(c, w, e);
    var id := w.peers[e].id;
    assert w.links[id := w.links[id]] == w.links;
    SessionStep(c, w, WriterStarted(w, e), e, w.peers[e].session.(writing := true), id, w.links[id]);
  }

  lemma FlowWithout(c: Setting, w: World, e: Endpoint)
    requires FlowOk(c, w)
    ensures FlowOk(c, w.(peers := w.peers - {e}))
  {
    hide PeerFlow;
    FlowCarries(c, w, w.(peers := w.peers - {e}), {});
  }

  /** Ending a session, its link being well, needs nothing of its flow any more. */
  lemma EndSessionFlows(c: Setting, w: World, e: Endpoint)
    requires e in w.peers && LinksOk(c, w) && FlowOk(c, w.(peers := w.peers - {e}))
    ensures LinksOk(c, EndSession(w, e)) && FlowOk(c, EndSession(w, e))
  {
    hide FlowOk, PeerFlow, LinkOk;
    FlowCarries(c, w.(peers := w.peers - {e}), EndSession(w, e), {e});
  }

  lemma EndSessionQueues(c: Setting, w: World, e: Endpoint)
    requires e in w.peers && QueuesOk(c, w)
    ensures QueuesOk(c, EndSession(w, e))
  {
  }

  lemma EndSessionKeeps(c: Setting, w: World, e: Endpoint)
    requires e in w.peers && Orderly(c, w)
    ensures Orderly(c, EndSession(w, e))
  {
    hide PeerOk, QueuesOk, DeskOk, NodesPlaced, HasLocal, OwnersOk;
    EndSessionQueues(c, w, e);
    PeerHasSession(c, w, e);
    var id := w.peers[e].id;
    assert w.links[id := w.links[id]] == w.links;
    SessionStep(c, w, EndSession(w, e), e, w.peers[e].session.(phase := Ending), id, w.links[id]);
  }

  lemma EndLoopsFlows(c: Setting, w: World, e: Endpoint)
    requires LinksOk(c, w) && FlowOk(c, w) && e in w.peers
    ensures LinksOk(c, EndSession(w, e)) && FlowOk(c, EndSession(w, e))
  {
    hide LinksOk, EndSession, FlowOk;
    FlowWithout(c, w, e);
    EndSessionFlows(c, w, e);
  }

  /** The link after n bytes of the next frame: still well, whole if the frame is, and account and queue agree. */
  lemma WrittenLink(c: Setting, l: Link, queue: seq<InputEvent>, n: nat)
    requires queue != [] && LinkOk(c.codec, l) && PeerFlow(c, l, queue)
    requires WriteError(c.codec, InputMessage(queue[0])).None? && n <= |Frame(c.codec, InputMessage(queue[0]))|
    ensures var r := WriteFirst(c.codec, l, queue[0], n);
            && LinkOk(c.codec, r)
            && (n == |Frame(c.codec, InputMessage(queue[0]))| ==> PeerFlow(c, r, queue[1..]))
  {
    hide LinkOk, Whole, Frame, WriteError;
    assert queue == [queue[0]] + queue[1..];
    assert l.accepted == (l.sent + [queue[0]]) + queue[1..];
    WriteKeeps(c.codec, l, queue[0], n);
  }

  /** A full frame keeps the flow, a part of one breaks only this peer's. */
  lemma WrittenFlows(c: Setting, w: World, e: Endpoint, n: nat)
    requires PeersOk(c, w) && LinksOk(c, w) && FlowOk(c, w) && Writable(w, e)
    requires var m := InputMessage(w.desk.channels[e].queue[0]);
             WriteError(c.codec, m).None? && n <= |Frame(c.codec, m)|
    ensures var r := Written(c, w, e, n);
            && LinksOk(c, r) && FlowOk(c, r.(peers := r.peers - {e}))
            && (n == |Frame(c.codec, InputMessage(w.desk.channels[e].queue[0]))| ==> FlowOk(c, r))
  {
    hide FlowOk, PeerFlow, LinkOk, PeerOk, Frame, WriteError, WriteFirst;
    var r := Written(c, w, e, n);
    BusyPeer(c, w, e);
    WrittenLink(c, w.links[w.peers[e].id], w.desk.channels[e].queue, n);
    FlowCarries(c, w, r.(peers := r.peers - {e}), {});
    if n == |Frame(c.codec, InputMessage(w.desk.channels[e].queue[0]))| {
      FlowCarries(c, w, r, {e});
    }
  }

  lemma PopQueues(c: Setting, w: World, e: Endpoint)
    requires QueuesOk(c, w) && HasQueued(w.desk, e)
    ensures QueuesOk(c, w.(desk := PopQueue(w.desk, e)))
  {
  }

  /** Taking the next event from the queue, whatever is written of it. */
  lemma PopKeeps(c: Setting, w: World, e: Endpoint, l: Link)
    requires Orderly(c, w) && Writable(w, e)
    ensures Orderly(c, w.(desk := PopQueue(w.desk, e)))
    ensures Orderly(c, w.(desk := PopQueue(w.desk, e), links := w.links[w.peers[e].id := l]))
  {
    hide PeerOk, QueuesOk, DeskOk, NodesPlaced, HasLocal, OwnersOk;
    PopQueues(c, w, e);
    PeerHasSession(c, w, e);
    var id, popped := w.peers[e].id, w.(desk := PopQueue(w.desk, e));
    assert w.links[id := w.links[id]] == w.links && w.peers[e := w.peers[e]] == w.peers;
    SessionStep(c, w, popped, e, w.peers[e].session, id, w.links[id]);
    SessionStep(c, w, popped.(links := w.links[id := l]), e, w.peers[e].session, id, l);
    QueuesApart(c, popped, w.links[id := l]);
  }

  lemma QueuesApart(c: Setting, w: World, links: map<nat, Link>)
    requires QueuesOk(c, w)
    ensures QueuesOk(c, w.(links := links))
  {
  }

  /** Popping alone breaks only this peer's flow. */
  lemma PopFlows(c: Setting, w: World, e: Endpoint)
    requires LinksOk(c, w) && FlowOk(c, w) && Writable(w, e)
    ensures var r := w.(desk := PopQueue(w.desk, e)); LinksOk(c, r) && FlowOk(c, r.(peers := r.peers - {e}))
  {
    hide FlowOk, PeerFlow, LinkOk;
    var r := w.(desk := PopQueue(w.desk, e));
    FlowCarries(c, w, r.(peers := r.peers - {e}), {});
  }

  lemma WriteNextKeeps(c: Setting, w: World, e: Endpoint)
    requires Orderly(c, w) && Writable(w, e)
    ensures Orderly(c, WroteNext(c, w, e))
  {
    hide Orderly, Frame, WriteError, EndSession, WriteFirst;
    var m := InputMessage(w.desk.channels[e].queue[0]);
    var id := w.peers[e].id;
    if WriteError(c.codec, m).Some? {
      PopKeeps(c, w, e, w.links[id]);
      EndSessionKeeps(c, w.(desk := PopQueue(w.desk, e)), e);
    } else {
      PopKeeps(c, w, e, Written(c, w, e, |Frame(c.codec, m)|).links[id]);
    }
  }

  lemma WriteNextFlows(c: Setting, w: World, e: Endpoint)
    requires PeersOk(c, w) && LinksOk(c, w) && FlowOk(c, w) && Writable(w, e)
    ensures LinksOk(c, WroteNext(c, w, e)) && FlowOk(c, WroteNext(c, w, e))
  {
    hide PeersOk, LinksOk, FlowOk, Frame, WriteError, EndSession, Written;
    var m := InputMessage(w.desk.channels[e].queue[0]);
    if WriteError(c.codec, m).Some? {
      PopFlows(c, w, e);
      EndSessionFlows(c, w.(desk := PopQueue(w.desk, e)), e);
    } else {
      WrittenFlows(c, w, e, |Frame(c.codec, m)|);
    }
  }

  lemma BreakWriteKeeps(c: Setting, w: World, e: Endpoint, n: nat)
    requires Orderly(c, w) && Writable(w, e)
    requires var m := InputMessage(w.desk.channels[e].queue[0]);
             WriteError(c.codec, m).None? && n < |Frame(c.codec, m)|
    ensures Orderly(c, EndSession(Written(c, w, e, n), e))
  {
    hide Orderly, Frame, WriteError, EndSession, WriteFirst;
    PopKeeps(c, w, e, Written(c, w, e, n).links[w.peers[e].id]);
    EndSessionKeeps(c, Written(c, w, e, n), e);
  }

  lemma BreakWriteFlows(c: Setting, w: World, e: Endpoint, n: nat)
    requires PeersOk(c, w) && LinksOk(c, w) && FlowOk(c, w) && Writable(w, e)
    requires var m := InputMessage(w.desk.channels[e].queue[0]);
             WriteError(c.codec, m).None? && n < |Frame(c.codec, m)|
    ensures var r := EndSession(Written(c, w, e, n), e); LinksOk(c, r) && FlowOk(c, r)
  {
    hide PeersOk, LinksOk, FlowOk, Frame, WriteError, EndSession;
    WrittenFlows(c, w, e, n);
    EndSessionFlows(c, Written(c, w, e, n), e);
  }

  // ----- Messages from a peer -----

  lemma SilentPeerHasNoNodes(c: Setting, w: World, e: Endpoint)
    requires NodesPlaced(c, w) && PeersOk(c, w) && InPhase(w, e, AwaitingHello)
    ensures forall n :: n in w.desk.store.nodes ==> n.screen.endpoint != e
  {
    forall n | n in w.desk.store.nodes ensures n.screen.endpoint != e {
      assert NodeOk(c, w, n);
    }
  }

  lemma GreetedPeer(c: Setting, w: World, e: Endpoint, m: RpcMessage)
    requires PeersOk(c, w) && InPhase(w, e, AwaitingHello)
    ensures PeerOk(c, Greet(w.desk.store.config, w.peers[e].session, e, m, c.format))
  {
  }

  /** The owner noted is the one the session goes by; without a hello none is noted. */
  lemma GreetedOwners(c: Setting, w: World, e: Endpoint, m: RpcMessage)
    requires PeersOk(c, w) && OwnersOk(c, w) && InPhase(w, e, AwaitingHello)
    ensures OwnersOk(c, Greeted(c, w, e, m))
  {
    hide IsTrustedClient, OwnerOf;
    assert e !in w.desk.store.owners;
    OwnersCarry(c, w, Greeted(c, w, e, m), e);
  }

  lemma GreetedQueues(c: Setting, w: World, e: Endpoint, m: RpcMessage)
    requires PeersOk(c, w) && QueuesOk(c, w) && InPhase(w, e, AwaitingHello)
    ensures QueuesOk(c, Greeted(c, w, e, m)) && e !in w.desk.channels
  {
    hide IsTrustedClient, OwnerOf;
    assert !w.peers[e].session.writing;
  }

  lemma GreetedFlows(c: Setting, w: World, e: Endpoint, m: RpcMessage)
    requires LinksOk(c, w) && FlowOk(c, w) && InPhase(w, e, AwaitingHello)
    ensures var r := Greeted(c, w, e, m); LinksOk(c, r) && FlowOk(c, r)
  {
    hide FlowOk, PeerFlow, LinkOk, IsTrustedClient, OwnerOf;
    FlowCarries(c, w, Greeted(c, w, e, m), {});
  }

  lemma FirstMessageKeeps(c: Setting, w: World, e: Endpoint, m: RpcMessage)
    requires Orderly(c, w) && InPhase(w, e, AwaitingHello)
    ensures Orderly(c, Greeted(c, w, e, m))
  {
    hide DeskOk, PeersOk, NodesPlaced, QueuesOk, OwnersOk, HasLocal, Greet;
    var r := Greeted(c, w, e, m);
    OwnersDoNotMatter(w.desk, r.desk.store.owners, w.desk.channels);
    GreetedPeer(c, w, e, m);
    GreetedOwners(c, w, e, m);
    GreetedQueues(c, w, e, m);
    PeerHasSession(c, w, e);
    PeersCarry(c, w, e, r.peers[e].session, r.desk, w.peers[e].id, w.links[w.peers[e].id]);
    SilentPeerHasNoNodes(c, w, e);
    NodesCarry(c, w, r);
  }

  /** The desk changed, but queues, owners and trust did not, and its nodes are still placed. */
  lemma DeskReplaced(c: Setting, w: World, d: Desk)
    requires Orderly(c, w) && DeskOk(d) && HomeOk(w.(desk := d)) && NodesPlaced(c, w.(desk := d))
    requires d.channels == w.desk.channels && d.store.owners == w.desk.store.owners
    requires d.store.config.trustedClients == w.desk.store.config.trustedClients
    ensures Orderly(c, w.(desk := d))
  {
    hide DeskOk, HasLocal, PeerOk, NodesPlaced, OwnersOk;
    OwnersUntouched(c, w, w.(desk := d));
  }

  lemma QueuesUntouched(c: Setting, w: World, d: Desk)
    requires LinksOk(c, w) && FlowOk(c, w) && d.channels == w.desk.channels
    ensures LinksOk(c, w.(desk := d)) && FlowOk(c, w.(desk := d))
  {
    hide LinkOk, FlowOk, PeerFlow;
    FlowCarries(c, w, w.(desk := d), {});
  }

  lemma ReportNodes(c: Setting, w: World, e: Endpoint, d: Desk)
    requires NodesPlaced(c, w) && PeersOk(c, w) && InPhase(w, e, Serving)
    requires NodesReplaced(w.desk.store.nodes, d.store.nodes, e, w.peers[e].session.ownerId, false)
    ensures NodesPlaced(c, w.(desk := d))
  {
    forall n | n in d.store.nodes ensures NodeOk(c, w.(desk := d), n) {
      if n in w.desk.store.nodes && n.screen.endpoint != e {
        assert NodeOk(c, w, n);
      }
    }
  }

  lemma ReportKeeps(c: Setting, w: World, e: Endpoint, infos: seq<ScreenInfo>)
    requires Orderly(c, w) && InPhase(w, e, Serving)
    ensures Orderly(c, w.(desk := ReplaceScreens(w.desk, e, w.peers[e].session.ownerId, infos, false, false)))
  {
    hide DeskOk, HasLocal, QueuesOk, OwnersOk, PeersOk, NodesPlaced, NodesReplaced, ReplaceScreens, PlaceFirst;
    var o := w.peers[e].session.ownerId;
    var d := ReplaceScreens(w.desk, e, o, infos, false, false);
    ReplaceKeeps(w.desk, e, o, infos);
    PlaceFirstKeepsTrust(Remove(w.desk.store, e), e, o, infos, false, |infos|);
    ReportNodes(c, w, e, d);
    DeskReplaced(c, w, d);
  }

  lemma LaterMessageKeeps(c: Setting, w: World, e: Endpoint, m: RpcMessage)
    requires Orderly(c, w) && InPhase(w, e, Serving)
    ensures Orderly(c, Received(w, e, m))
  {
    hide Orderly, ReplaceScreens;
    if m.ScreensMessage? {
      ReportKeeps(c, w, e, m.infos);
    }
  }

  lemma LaterMessageFlows(c: Setting, w: World, e: Endpoint, m: RpcMessage)
    requires Orderly(c, w) && LinksOk(c, w) && FlowOk(c, w) && InPhase(w, e, Serving)
    ensures LinksOk(c, Received(w, e, m)) && FlowOk(c, Received(w, e, m))
  {
    hide DeskOk, LinksOk, FlowOk, PeersOk, NodesPlaced, OwnersOk, QueuesOk, ReplaceScreens, NodesReplaced, Register;
    if m.ScreensMessage? {
      ReplaceKeeps(w.desk, e, w.peers[e].session.ownerId, m.infos);
    }
    QueuesUntouched(c, w, Received(w, e, m).desk);
  }

  // ----- The end of a session -----

  lemma ClosedPeers(c: Setting, w: World, e: Endpoint, d: Desk)
    requires PeersOk(c, w) && d.store.config == w.desk.store.config
    ensures PeersOk(c, w.(desk := d, peers := w.peers - {e}))
  {
    hide PeerOk;
  }

  lemma ClosedOwners(c: Setting, w: World, e: Endpoint, d: Desk)
    requires OwnersOk(c, w) && d.store.owners == w.desk.store.owners - {e}
    ensures OwnersOk(c, w.(desk := d, peers := w.peers - {e}))
  {
    OwnersCarry(c, w, w.(desk := d, peers := w.peers - {e}), e);
  }

  lemma ClosedQueues(c: Setting, w: World, e: Endpoint, d: Desk)
    requires QueuesOk(c, w) && d.channels == w.desk.channels - {e}
    ensures QueuesOk(c, w.(desk := d, peers := w.peers - {e}))
  {
  }

  lemma ClosedFlows(c: Setting, w: World, e: Endpoint)
    requires DeskOk(w.desk) && LinksOk(c, w) && FlowOk(c, w)
    ensures LinksOk(c, Closed(w, e)) && FlowOk(c, Closed(w, e))
  {
    hide DeskOk, FlowOk, PeerFlow, LinkOk, CloseEndpoint, Without;
    CloseKeeps(w.desk, e);
    FlowCarries(c, w, Closed(w, e), {});
  }

  lemma LocalsStay(before: seq<Node>, after: seq<Node>)
    requires forall n :: n in after ==> n in before
    ensures HasLocal(after) ==> HasLocal(before)
  {
  }

  lemma CloseStepKeeps(c: Setting, w: World, e: Endpoint)
    requires Orderly(c, w) && e in w.peers
    ensures Orderly(c, Closed(w, e))
  {
    hide DeskOk, PeersOk, NodesPlaced, QueuesOk, OwnersOk, HasLocal, CloseEndpoint, Without;
    CloseKeeps(w.desk, e);
    RemoveLeaves(w.desk.store, e);
    var d := CloseEndpoint(w.desk, e);
    LocalsStay(w.desk.store.nodes, d.store.nodes);
    ClosedPeers(c, w, e, d);
    ClosedOwners(c, w, e, d);
    ClosedQueues(c, w, e, d);
    NodesCarry(c, w, Closed(w, e));
  }

  // ----- Captured events -----

  lemma DetachKeeps(c: Setting, w: World)
    requires Orderly(c, w)
    ensures Orderly(c, w.(desk := SetCapture(w.desk, false)))
  {
    hide QueuesOk, OwnersOk, StoreOk, NodesPlaced;
    NodesCarry(c, w, w.(desk := SetCapture(w.desk, false)));
    DeskReplaced(c, w, SetCapture(w.desk, false));
  }

  lemma NothingToCredit(w: World, d: Desk)
    requires d.history.delivered == w.desk.history.delivered
    ensures Credit(w, d) == w.(desk := d)
  {
  }

  /** What is credited, and to which connection: the one the screen now active belongs to. */
  lemma CreditIs(c: Setting, w: World, d: Desk)
    requires PeersOk(c, w) && QueuesOk(c, w) && AtMostOneDelivery(w.desk, d)
    requires d.history.delivered != w.desk.history.delivered
    ensures RemoteActive(d) && |d.history.delivered| == |w.desk.history.delivered| + 1
    ensures var e := d.active.value.screen.endpoint;
            var event := d.history.delivered[|w.desk.history.delivered|].event;
            && e in w.desk.channels && Accepts(w.desk.channels[e])
            && InPhase(w, e, Serving) && w.peers[e].id in w.links
            && d.channels == w.desk.channels[e := w.desk.channels[e].(queue := w.desk.channels[e].queue + [event])]
            && Credit(w, d) == w.(desk := d, links := w.links[w.peers[e].id := Accept(w.links[w.peers[e].id], event)])
  {
    hide PeerOk;
  }

  lemma CreditQueues(c: Setting, w: World, d: Desk, e: Endpoint, event: InputEvent)
    requires QueuesOk(c, w) && e in w.desk.channels && Accepts(w.desk.channels[e])
    requires d.channels == w.desk.channels[e := w.desk.channels[e].(queue := w.desk.channels[e].queue + [event])]
    ensures QueuesOk(c, w.(desk := d))
  {
  }

  lemma CreditFlows(c: Setting, w: World, d: Desk, e: Endpoint, event: InputEvent)
    requires PeersOk(c, w) && LinksOk(c, w) && FlowOk(c, w)
    requires e in w.desk.channels && InPhase(w, e, Serving) && w.peers[e].id in w.links
    requires d.channels == w.desk.channels[e := w.desk.channels[e].(queue := w.desk.channels[e].queue + [event])]
    ensures var r := w.(desk := d, links := w.links[w.peers[e].id := Accept(w.links[w.peers[e].id], event)]);
            LinksOk(c, r) && FlowOk(c, r)
  {
    hide FlowOk, LinkOk, PeerOk, PeerFlow;
    var id := w.peers[e].id;
    BusyPeer(c, w, e);
    AcceptedLink(c, w.links[id], w.desk.channels[e].queue, event);
    FlowCarries(c, w, w.(desk := d, links := w.links[id := Accept(w.links[id], event)]), {e});
  }

  lemma AcceptedLink(c: Setting, l: Link, queue: seq<InputEvent>, event: InputEvent)
    requires LinkOk(c.codec, l) && PeerFlow(c, l, queue)
    ensures LinkOk(c.codec, Accept(l, event)) && PeerFlow(c, Accept(l, event), queue + [event])
  {
    hide LinkOk, Whole;
    AcceptKeeps(c.codec, l, event);
  }

  /** The event accepted in a step goes to a served peer, and onto the account of its connection. */
  lemma CreditKeeps(c: Setting, w: World, d: Desk)
    requires Orderly(c, w) && DeskOk(d) && HomeOk(w.(desk := d)) && d.store == w.desk.store
    requires AtMostOneDelivery(w.desk, d)
    ensures Orderly(c, Credit(w, d))
  {
    hide DeskOk, PeersOk, NodesPlaced, QueuesOk, OwnersOk, HasLocal, Credit;
    if d.channels == w.desk.channels && d.history.delivered == w.desk.history.delivered {
      NodesCarry(c, w, w.(desk := d));
      DeskReplaced(c, w, d);
      NothingToCredit(w, d);
    } else {
      OneAccepted(c, w, d);
    }
  }

  lemma OneAccepted(c: Setting, w: World, d: Desk)
    requires Orderly(c, w) && DeskOk(d) && HomeOk(w.(desk := d)) && d.store == w.desk.store
    requires AtMostOneDelivery(w.desk, d) && d.history.delivered != w.desk.history.delivered
    ensures Orderly(c, Credit(w, d))
  {
    hide DeskOk, PeersOk, NodesPlaced, QueuesOk, OwnersOk, HasLocal, Credit, AtMostOneDelivery, Accepts;
    CreditIs(c, w, d);
    var e := d.active.value.screen.endpoint;
    var event := d.history.delivered[|w.desk.history.delivered|].event;
    CreditQueues(c, w, d, e, event);
    QueuesApart(c, w.(desk := d), Credit(w, d).links);
    PeerHasSession(c, w, e);
    PeersCarry(c, w, e, w.peers[e].session, d, w.peers[e].id, Accept(w.links[w.peers[e].id], event));
    NodesCarry(c, w, Credit(w, d));
    OwnersUntouched(c, w, Credit(w, d));
  }

  lemma CapturedKeeps(c: Setting, w: World, event: InputEvent, warpOk: bool)
    requires Orderly(c, w)
    ensures Orderly(c, Credit(w, Handle(w.desk, event, warpOk)))
  {
    hide DeskOk, Handle, Credit, PeersOk, NodesPlaced, QueuesOk, OwnersOk, AtMostOneDelivery;
    HandleKeeps(w.desk, event, warpOk);
    CreditKeeps(c, w, Handle(w.desk, event, warpOk));
  }

  lemma CapturedFlows(c: Setting, w: World, event: InputEvent, warpOk: bool)
    requires Orderly(c, w) && LinksOk(c, w) && FlowOk(c, w)
    ensures var r := Credit(w, Handle(w.desk, event, warpOk)); LinksOk(c, r) && FlowOk(c, r)
  {
    hide DeskOk, Handle, Credit, PeersOk, NodesPlaced, QueuesOk, OwnersOk, LinksOk, FlowOk;
    HandleKeeps(w.desk, event, warpOk);
    var d := Handle(w.desk, event, warpOk);
    if d.history.delivered == w.desk.history.delivered {
      NothingToCredit(w, d);
      QueuesUntouched(c, w, d);
    } else {
      CreditIs(c, w, d);
      CreditFlows(c, w, d, d.active.value.screen.endpoint, d.history.delivered[|w.desk.history.delivered|].event);
    }
  }

  // ----- Every step, every run -----

  /** Nothing about the bytes on the streams is needed for order. */
  lemma StepOrderly(c: Setting, w: World, s: Step)
    requires Orderly(c, w) && Enabled(c, w, s)
    ensures Orderly(c, Apply(c, w, s))
  {
    hide Orderly, Connected, Greeted, Received, WriterStarted, WroteNext, EndSession, Written, Closed,
      Credit, Handle, SetCapture, ClientRead;
    match s
    case Connect(e) => ConnectKeeps(c, w, e);
    case FirstMessage(e, m) => FirstMessageKeeps(c, w, e, m);
    case LaterMessage(e, m) => LaterMessageKeeps(c, w, e, m);
    case StartWriter(e) => StartWriterKeeps(c, w, e);
    case WriteNext(e) => WriteNextKeeps(c, w, e);
    case BreakWrite(e, n) => BreakWriteKeeps(c, w, e, n);
    case EndLoops(e) => EndSessionKeeps(c, w, e);
    case Close(e) => CloseStepKeeps(c, w, e);
    case Arrive(id, n) => OneLinkChanged(c, w, id, Pipeline.Arrive(w.links[id], n));
    case ClientReads(id, ok) => OneLinkChanged(c, w, id, ClientRead(c.codec, w.links[id], ok));
    case Captured(event, warpOk) => CapturedKeeps(c, w, event, warpOk);
    case DetachCapture => DetachKeeps(c, w);
  }

  /** The streams and the clients stay in step with the queues, given a serializer that round-trips. */
  lemma StepFlows(c: Setting, w: World, s: Step)
    requires RoundTrips(c.codec) && Inv(c, w) && Enabled(c, w, s)
    ensures LinksOk(c, Apply(c, w, s)) && FlowOk(c, Apply(c, w, s))
  {
    hide LinksOk, FlowOk, RoundTrips, Connected, Greeted, Received, WriterStarted, WroteNext, EndSession, Written, Closed,
      Credit, Handle, SetCapture, ClientRead, DeskOk, PeersOk, QueuesOk, NodesPlaced, OwnersOk, HasLocal;
    match s
    case Connect(e) => ConnectFlows(c, w, e);
    case FirstMessage(e, m) => GreetedFlows(c, w, e, m);
    case LaterMessage(e, m) => LaterMessageFlows(c, w, e, m);
    case StartWriter(e) => StartWriterFlows(c, w, e);
    case WriteNext(e) => WriteNextFlows(c, w, e);
    case BreakWrite(e, n) => BreakWriteFlows(c, w, e, n);
    case EndLoops(e) => EndLoopsFlows(c, w, e);
    case Close(e) => ClosedFlows(c, w, e);
    case Arrive(id, n) => ArriveFlows(c, w, id, n);
    case ClientReads(id, ok) => ClientReadsFlows(c, w, id, ok);
    case Captured(event, warpOk) => CapturedFlows(c, w, event, warpOk);
    case DetachCapture => DetachFlows(c, w);
  }

  lemma DetachFlows(c: Setting, w: World)
    requires LinksOk(c, w) && FlowOk(c, w)
    ensures var r := w.(desk := SetCapture(w.desk, false)); LinksOk(c, r) && FlowOk(c, r)
  {
    hide LinksOk, FlowOk;
    QueuesUntouched(c, w, SetCapture(w.desk, false));
  }

  lemma StepKeeps(c: Setting, w: World, s: Step)
    requires RoundTrips(c.codec) && Inv(c, w) && Enabled(c, w, s)
    ensures Inv(c, Apply(c, w, s))
  {
    hide Orderly, LinksOk, FlowOk, RoundTrips, Enabled, Apply;
    StepOrderly(c, w, s);
    StepFlows(c, w, s);
  }

  lemma StartKeeps(c: Setting, config: AppConfig, infos: seq<ScreenInfo>)
    requires config.trustedClients == c.trusted
    ensures Inv(c, Start(c, config, infos))
  {
    hide DeskOk, Boot, PlaceFirst;
    BootKeeps(config, c.host, c.hostOwner, infos);
    PlaceFirstKeepsTrust(EmptyStore(config), c.host, c.hostOwner, infos, true, |infos|);
  }

  lemma {:induction false} RunOrderly(c: Setting, config: AppConfig, infos: seq<ScreenInfo>,
                                      steps: seq<Step>, states: seq<World>, i: nat)
    requires IsRun(c, config, infos, steps, states) && i < |states|
    ensures Orderly(c, states[i])
    decreases i
  {
    hide Orderly, Apply, Enabled, Start, LinksOk, FlowOk;
    if i == 0 {
      StartKeeps(c, config, infos);
    } else {
      RunOrderly(c, config, infos, steps, states, i - 1);
      StepOrderly(c, states[i - 1], steps[i - 1]);
    }
  }

  lemma {:induction false} RunKeeps(c: Setting, config: AppConfig, infos: seq<ScreenInfo>,
                                    steps: seq<Step>, states: seq<World>, i: nat)
    requires RoundTrips(c.codec) && IsRun(c, config, infos, steps, states) && i < |states|
    ensures Inv(c, states[i])
    decreases i
  {
    hide Inv, Apply, Enabled, RoundTrips, Start;
    if i == 0 {
      StartKeeps(c, config, infos);
    } else {
      RunKeeps(c, config, infos, steps, states, i - 1);
      StepKeeps(c, states[i - 1], steps[i - 1]);
    }
  }
}
