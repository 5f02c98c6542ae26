/** What the invariant means, for every state of every run. */
module Theorems {
  import opened Core
  import opened Config
  import opened Screens
  import opened StoreLaws
  import opened PlacementLaws
  import opened Input
  import opened InputLaws
  import opened PointerLaws
  import opened Transport
  import opened Pipeline
  import opened Server
  import opened Session
  import opened SessionLaws
  import opened DeskLaws
  import opened World
  import opened WorldLaws
  import T = Topology

  // ----- Whatever the peers call themselves -----

  /**
   * The active pointer is null or at a live node, and the last mode commanded to the
   * attached capture says whether the active screen is remote.
   */
  lemma PointerLiveAndModeTold(c: Setting, config: AppConfig, infos: seq<ScreenInfo>,
                               steps: seq<Step>, states: seq<World>, i: nat)
    requires IsRun(c, config, infos, steps, states) && i < |states|
    ensures var d := states[i].desk;
            && (d.active.Some? ==> d.active.value in d.store.nodes)
            && (d.capture.Some? ==>
                  var modes := d.capture.value.modes;
                  modes != [] && modes[|modes| - 1] == RemoteActive(d))
  {
    hide Enabled, Apply, Start;
    RunOrderly(c, config, infos, steps, states, i);
  }

  /** An echo is awaited only at home, and suppressed samples never outnumber successful warps. */
  lemma SuppressionsPaidFor(c: Setting, config: AppConfig, infos: seq<ScreenInfo>,
                            steps: seq<Step>, states: seq<World>, i: nat)
    requires IsRun(c, config, infos, steps, states) && i < |states|
    ensures var d := states[i].desk;
            && (d.pendingWarp.Some? ==> d.active.Some? && d.active.value.screen.local)
            && d.history.suppressed <= d.history.warps
  {
    hide Enabled, Apply, Start;
    RunOrderly(c, config, infos, steps, states, i);
  }

  /** Host screens outlive every step. */
  lemma LocalNodesStay(c: Setting, w: World, s: Step)
    requires Orderly(c, w) && Enabled(c, w, s) && HasLocal(w.desk.store.nodes)
    ensures HasLocal(Apply(c, w, s).desk.store.nodes)
  {
    hide DeskOk, QueuesOk, OwnersOk, Handle, CloseEndpoint, ReplaceScreens, PeerOk, Trusts,
      ClientRead, Without, Greet, NodesReplaced;
    var n :| n in w.desk.store.nodes && n.screen.local;
    assert NodeOk(c, w, n);
    match s
    case LaterMessage(e, m) =>
      if m.ScreensMessage? {
        ReplaceKeeps(w.desk, e, w.peers[e].session.ownerId, m.infos);
        ReplacedKeepsOthers(w.desk, e, w.peers[e].session.ownerId, m.infos, n);
      }
    case Close(e) =>
      CloseKeeps(w.desk, e);
      RemoveLeaves(w.desk.store, e);
    case Captured(event, warpOk) => HandleKeeps(w.desk, event, warpOk);
    case _ =>
  }

  lemma ReplacedKeepsOthers(d: Desk, e: Endpoint, o: string, infos: seq<ScreenInfo>, n: Node)
    requires NodesReplaced(d.store.nodes, ReplaceScreens(d, e, o, infos, false, false).store.nodes, e, o, false)
    requires n in d.store.nodes && n.screen.endpoint != e
    ensures n in ReplaceScreens(d, e, o, infos, false, false).store.nodes
  {
    hide ReplaceScreens;
  }

  lemma {:induction false} LocalNodesStayInRun(c: Setting, config: AppConfig, infos: seq<ScreenInfo>,
                                               steps: seq<Step>, states: seq<World>, i: nat)
    requires IsRun(c, config, infos, steps, states) && i < |states|
    requires HasLocal(states[0].desk.store.nodes)
    ensures HasLocal(states[i].desk.store.nodes)
    decreases i
  {
    hide Orderly, Apply, Enabled, Start, HasLocal;
    if 0 < i {
      LocalNodesStayInRun(c, config, infos, steps, states, i - 1);
      RunOrderly(c, config, infos, steps, states, i - 1);
      LocalNodesStay(c, states[i - 1], steps[i - 1]);
    }
  }

  lemma StartHasLocal(c: Setting, config: AppConfig, infos: seq<ScreenInfo>)
    ensures HasLocal(Start(c, config, infos).desk.store.nodes) <==>
            exists j :: 0 <= j < |infos| && ValidRect(infos[j])
  {
    hide Boot, PlaceFirst, StoreOk, FirstLocal;
    BootKeeps(config, c.host, c.hostOwner, infos);
    StartupRegistersSome(config, c.host, c.hostOwner, infos);
    var st := Start(c, config, infos).desk.store;
    NodesMatchGrid(st);
    assert st.nodes != [] ==> st.nodes[0] in st.nodes;
  }

  lemma NodesMatchGrid(st: Store)
    requires Synced(st)
    ensures st.nodes != [] <==> st.grid.screens.Keys != {}
  {
    SyncedCounts(st);
    assert st.nodes != [] ==> st.nodes[0] in st.nodes;
    assert |st.grid.screens| == |st.grid.screens.Keys|;
  }

  /**
   * The pointer is never null between steps exactly when startup reported a drawable
   * local screen: then it is set in every state, otherwise not even at the start.
   */
  lemma PointerNeverNull(c: Setting, config: AppConfig, infos: seq<ScreenInfo>, steps: seq<Step>, states: seq<World>)
    requires IsRun(c, config, infos, steps, states)
    ensures (exists j :: 0 <= j < |infos| && ValidRect(infos[j])) <==>
            (forall i :: 0 <= i < |states| ==> states[i].desk.active.Some?)
  {
    hide Apply, Enabled, Start, HasLocal, DeskOk, PeersOk, NodesPlaced, QueuesOk, OwnersOk;
    StartHasLocal(c, config, infos);
    if HasLocal(states[0].desk.store.nodes) {
      forall i | 0 <= i < |states| ensures states[i].desk.active.Some? {
        LocalNodesStayInRun(c, config, infos, steps, states, i);
        RunOrderly(c, config, infos, steps, states, i);
      }
    } else {
      NoLocalNoPointer(c, config, infos);
    }
  }

  lemma NoLocalNoPointer(c: Setting, config: AppConfig, infos: seq<ScreenInfo>)
    requires !HasLocal(Start(c, config, infos).desk.store.nodes)
    ensures Start(c, config, infos).desk.active.None?
  {
    hide Boot, PlaceFirst, StoreOk;
    BootKeeps(config, c.host, c.hostOwner, infos);
  }

  /**
   * An endpoint has remote screens, or a queue, only while its session is open and its
   * first message was a trusted hello; an owner note exactly while it is open and has said
   * hello at all; and its remote screens carry the owner of that session.
   */
  lemma OnlyTrustedPeersHaveScreens(c: Setting, config: AppConfig, infos: seq<ScreenInfo>,
                                    steps: seq<Step>, states: seq<World>, i: nat)
    requires IsRun(c, config, infos, steps, states) && i < |states|
    ensures var w := states[i];
            && (forall n :: n in w.desk.store.nodes && !n.screen.local ==>
                  && n.screen.endpoint in w.peers
                  && Trusts(c, w.peers[n.screen.endpoint].session)
                  && n.screen.key.ownerId == w.peers[n.screen.endpoint].session.ownerId)
            && (forall e :: e in w.desk.channels ==> e in w.peers && Trusts(c, w.peers[e].session))
            && (forall e :: e in w.desk.store.owners <==> e in w.peers && SaidHello(w.peers[e].session))
  {
    hide Enabled, Apply, Start, DeskOk, Trusts, OwnerNoted;
    RunOrderly(c, config, infos, steps, states, i);
    var w := states[i];
    forall n | n in w.desk.store.nodes && !n.screen.local
      ensures n.screen.endpoint in w.peers && Trusts(c, w.peers[n.screen.endpoint].session)
              && n.screen.key.ownerId == w.peers[n.screen.endpoint].session.ownerId
    {
      assert NodeOk(c, w, n);
    }
  }

  /**
   * The owner of a peer that said hello is its machine id, or its printed endpoint if that
   * is empty. It is what its session goes by, what is noted of it, what asking the store
   * for its owner gives, and the owner of every screen the peer has.
   */
  lemma DefaultOwnerIsSessionOwner(c: Setting, config: AppConfig, infos: seq<ScreenInfo>,
                                   steps: seq<Step>, states: seq<World>, i: nat, e: Endpoint)
    requires IsRun(c, config, infos, steps, states) && i < |states|
    requires e in states[i].peers && SaidHello(states[i].peers[e].session)
    ensures var st, s := states[i].desk.store, states[i].peers[e].session;
            && OwnerOfHello(s.ownerId, s.first.value, c.format(e))
            && e in st.owners && st.owners[e] == s.ownerId
            && DefaultOwnerId(st, e, false, c.format) == s.ownerId
            && forall n :: n in st.nodes && n.screen.endpoint == e ==> n.screen.key.ownerId == s.ownerId
  {
    hide Enabled, Apply, Start, DeskOk, Trusts, QueuesOk;
    RunOrderly(c, config, infos, steps, states, i);
    var w := states[i];
    assert OwnerNoted(c, w, e);
    forall n | n in w.desk.store.nodes && n.screen.endpoint == e
      ensures n.screen.key.ownerId == w.peers[e].session.ownerId
    {
      assert NodeOk(c, w, n);
    }
  }

  /** One machine has one owner, at any two moments of a run and on any two endpoints. */
  lemma MachinesHaveOneOwner(c: Setting, config: AppConfig, infos: seq<ScreenInfo>, steps: seq<Step>, states: seq<World>,
                             i: nat, e: Endpoint, j: nat, f: Endpoint)
    requires IsRun(c, config, infos, steps, states) && i < |states| && j < |states|
    requires e in states[i].peers && SaidHello(states[i].peers[e].session)
    requires f in states[j].peers && SaidHello(states[j].peers[f].session)
    requires var (hello, again) := (states[i].peers[e].session.first.value, states[j].peers[f].session.first.value);
             hello.machineId == again.machineId != ""
    ensures states[i].peers[e].session.ownerId == states[j].peers[f].session.ownerId
  {
    hide IsRun;
    DefaultOwnerIsSessionOwner(c, config, infos, steps, states, i, e);
    DefaultOwnerIsSessionOwner(c, config, infos, steps, states, j, f);
  }

  /** A first message opens service in a run exactly if it is a hello that the configured list lets in. */
  lemma HellosServed(c: Setting, config: AppConfig, infos: seq<ScreenInfo>,
                     steps: seq<Step>, states: seq<World>, i: nat)
    requires IsRun(c, config, infos, steps, states) && i < |steps| && steps[i].FirstMessage?
    ensures var e, m := steps[i].e, steps[i].message;
            && e in states[i + 1].peers
            && (states[i + 1].peers[e].session.phase == Serving <==> m.HelloMessage? && Listed(c.trusted, m))
  {
    hide Start, Greet, Orderly;
    RunOrderly(c, config, infos, steps, states, i);
    var w, e, m := states[i], steps[i].e, steps[i].message;
    OrderlyGivesPeers(c, w);
    WhoIsServed(w.desk.store.config, w.peers[e].session, e, m, c.format);
    assert states[i + 1] == Greeted(c, w, e, m);
  }

  // ----- What moves the pointer -----

  /** The step takes away or replaces the screens of an endpoint. */
  predicate Replaces(s: Step, e: Endpoint) {
    (s.LaterMessage? && s.message.ScreensMessage? && s.e == e) || (s.Close? && s.e == e)
  }

  predicate IsReport(s: Step) {
    s.LaterMessage? && s.message.ScreensMessage?
  }

  /**
   * Only captured events move the pointer, but for two cases: when the screens of the
   * endpoint it is on are replaced or taken away, and when a report comes while it is
   * nowhere. Then it comes home without moving the OS cursor.
   */
  lemma StepLeavesPointer(c: Setting, w: World, s: Step)
    requires DeskOk(w.desk) && Enabled(c, w, s) && !s.Captured? && !s.DetachCapture?
    ensures var d, r := w.desk, Apply(c, w, s).desk;
            if (d.active.Some? && Replaces(s, d.active.value.screen.endpoint)) || (d.active.None? && IsReport(s)) then
              CameIn(d, r)
            else PointerRests(d, r)
  {
    hide DeskOk, ReplaceScreens, CloseEndpoint, ClientRead, Greet, Frame, WriteError, CameIn;
    match s
    case LaterMessage(e, m) =>
      if m.ScreensMessage? {
        ReportLeavesPointer(w.desk, e, w.peers[e].session.ownerId, m.infos);
      }
    case Close(e) => CloseLeavesPointer(w.desk, e);
    case _ =>
  }

  lemma PointerUndisturbed(c: Setting, config: AppConfig, infos: seq<ScreenInfo>,
                           steps: seq<Step>, states: seq<World>, i: nat)
    requires IsRun(c, config, infos, steps, states) && i < |steps| && !steps[i].Captured?
    ensures var d, r := states[i].desk, states[i + 1].desk;
            if steps[i].DetachCapture? then r == d.(capture := None)
            else if (d.active.Some? && Replaces(steps[i], d.active.value.screen.endpoint))
                    || (d.active.None? && IsReport(steps[i])) then CameIn(d, r)
            else PointerRests(d, r)
  {
    hide Start, Orderly, Enabled, CameIn, PointerRests;
    RunOrderly(c, config, infos, steps, states, i);
    OrderlyGivesDesk(c, states[i]);
    if !steps[i].DetachCapture? {
      hide Apply;
      StepLeavesPointer(c, states[i], steps[i]);
    }
  }

  /** Of a served peer's messages only reports have any effect. */
  lemma OnlyReportsCount(c: Setting, config: AppConfig, infos: seq<ScreenInfo>,
                         steps: seq<Step>, states: seq<World>, i: nat)
    requires IsRun(c, config, infos, steps, states) && i < |steps| && steps[i].LaterMessage? && !IsReport(steps[i])
    ensures states[i + 1] == states[i]
  {
    hide Start;
  }

  /** Closing a session leaves no screen, no grid cell of its owner's, no queue and no owner note of it behind. */
  lemma CloseLeavesNothing(c: Setting, config: AppConfig, infos: seq<ScreenInfo>,
                           steps: seq<Step>, states: seq<World>, i: nat)
    requires IsRun(c, config, infos, steps, states) && i < |steps| && steps[i].Close?
    ensures var e, w := steps[i].e, states[i + 1];
            && e !in w.peers && e !in w.desk.channels && e !in w.desk.store.owners
            && (forall n :: n in w.desk.store.nodes ==> n.screen.endpoint != e)
            && forall n, k ::
                 n in states[i].desk.store.nodes && n.screen.endpoint == e && k in w.desk.store.grid.screens ==>
                   k.ownerId != n.screen.key.ownerId
  {
    hide Orderly, Start, CloseEndpoint, Without;
    RunOrderly(c, config, infos, steps, states, i);
    var w := states[i];
    assert DeskOk(w.desk) by { OrderlyGivesDesk(c, w); }
    CloseKeeps(w.desk, steps[i].e);
    RemoveLeaves(w.desk.store, steps[i].e);
  }

  lemma OrderlyGivesDesk(c: Setting, w: World)
    requires Orderly(c, w)
    ensures DeskOk(w.desk)
  {
  }

  // ----- What a connection's client gets -----

  /** Deliveries of two stretches, one after the other. */
  lemma {:induction false} EventsForAppend(a: seq<Delivery>, b: seq<Delivery>, e: Endpoint)
    ensures EventsFor(a + b, e) == EventsFor(a, e) + EventsFor(b, e)
    decreases |b|
  {
    if b == [] {
      assert a + b == a;
    } else {
      var front := b[..|b| - 1];
      assert (a + b)[..|a + b| - 1] == a + front;
      EventsForAppend(a, front, e);
    }
  }

  /** The connection belongs to no endpoint but this one. */
  ghost predicate OnlyAt(w: World, e: Endpoint, id: nat) {
    id in w.links && forall f :: LiveOn(w, f, id) ==> f == e
  }

  /** Deliveries are added, and those for the endpoint go onto its live connection's account. */
  ghost predicate Accounted(w: World, r: World, e: Endpoint, id: nat)
    requires id in w.links
  {
    && OnlyAt(r, e, id)
    && (LiveOn(r, e, id) ==> LiveOn(w, e, id))
    && w.desk.history.delivered <= r.desk.history.delivered
    && var added := r.desk.history.delivered[|w.desk.history.delivered|..];
       r.links[id].accepted == w.links[id].accepted + (if LiveOn(w, e, id) then EventsFor(added, e) else [])
  }

  /** Steps without a delivery. */
  lemma QuietAccounted(w: World, r: World, e: Endpoint, id: nat)
    requires id in w.links && OnlyAt(r, e, id) && (LiveOn(r, e, id) ==> LiveOn(w, e, id))
    requires r.desk.history.delivered == w.desk.history.delivered && r.links[id].accepted == w.links[id].accepted
    ensures Accounted(w, r, e, id)
  {
    hide LiveOn;
  }

  lemma DeliveryAccounted(w: World, r: World, e: Endpoint, id: nat, at: Endpoint, latest: Delivery)
    requires OnlyAt(w, e, id) && r.peers == w.peers && r.desk.history.delivered == w.desk.history.delivered + [latest]
    requires at in w.peers && w.peers[at].id in w.links && latest.target.screen.endpoint == at
    requires r.links == w.links[w.peers[at].id := Accept(w.links[w.peers[at].id], latest.event)]
    ensures Accounted(w, r, e, id)
  {
    var added := r.desk.history.delivered[|w.desk.history.delivered|..];
    assert added == [latest] && added[..0] == [];
    assert EventsFor(added, e) == if at == e then [latest.event] else [];
    NoNewPeers(w, r, id);
    SamePeers(w, r, e, id);
    assert w.peers[at].id == id ==> LiveOn(w, at, id);
  }

  lemma CapturedAccounted(c: Setting, w: World, event: InputEvent, warpOk: bool, e: Endpoint, id: nat)
    requires Orderly(c, w) && OnlyAt(w, e, id)
    ensures Accounted(w, Credit(w, Handle(w.desk, event, warpOk)), e, id)
  {
    hide DeskOk, Handle, Credit, NodesPlaced, OwnersOk, HasLocal, PeersOk, QueuesOk, LiveOn, Accounted;
    HandleKeeps(w.desk, event, warpOk);
    var d := Handle(w.desk, event, warpOk);
    if d.history.delivered == w.desk.history.delivered {
      NothingToCredit(w, d);
      NoNewPeers(w, w.(desk := d), id);
      SamePeers(w, w.(desk := d), e, id);
      QuietAccounted(w, w.(desk := d), e, id);
    } else {
      CreditIs(c, w, d);
      var latest := d.history.delivered[|w.desk.history.delivered|];
      DeliveryAccounted(w, Credit(w, d), e, id, d.active.value.screen.endpoint, latest);
    }
  }

  lemma SamePeers(w: World, r: World, e: Endpoint, id: nat)
    requires OnlyAt(w, e, id) && id in r.links
    requires forall f :: LiveOn(r, f, id) ==> LiveOn(w, f, id)
    ensures OnlyAt(r, e, id) && (LiveOn(r, e, id) ==> LiveOn(w, e, id))
  {
    hide LiveOn;
  }

  lemma NoNewPeers(w: World, r: World, id: nat)
    requires forall f :: f in r.peers ==> f in w.peers && r.peers[f].id == w.peers[f].id
    ensures forall f :: LiveOn(r, f, id) ==> LiveOn(w, f, id)
  {
  }

  lemma ConnectAccounted(c: Setting, w: World, at: Endpoint, e: Endpoint, id: nat)
    requires PeersOk(c, w) && OnlyAt(w, e, id) && at !in w.peers
    ensures Accounted(w, Connected(w, at), e, id)
  {
    hide PeerOk;
    var r := Connected(w, at);
    assert id < w.nextId;
    forall f | LiveOn(r, f, id) ensures LiveOn(w, f, id) { }
    SamePeers(w, r, e, id);
    QuietAccounted(w, r, e, id);
  }

  /** No step but a captured event adds a delivery or changes an account, and a new connection is never an old one. */
  lemma StepAccounted(c: Setting, w: World, s: Step, e: Endpoint, id: nat)
    requires Orderly(c, w) && Enabled(c, w, s) && OnlyAt(w, e, id)
    ensures Accounted(w, Apply(c, w, s), e, id)
  {
    hide DeskOk, PeersOk, NodesPlaced, OwnersOk, QueuesOk, HasLocal, LiveOn, Accounted, Handle, Credit,
      ReplaceScreens, CloseEndpoint, ClientRead, Greet, Frame, WriteError, Register, Remove, NodesReplaced;
    var r := Apply(c, w, s);
    match s
    case Connect(at) => ConnectAccounted(c, w, at, e, id);
    case Captured(event, warpOk) => CapturedAccounted(c, w, event, warpOk, e, id);
    case _ =>
      StepKeepsAccounts(c, w, s, id);
      NoNewPeers(w, r, id);
      SamePeers(w, r, e, id);
      QuietAccounted(w, r, e, id);
  }

  lemma StepKeepsAccounts(c: Setting, w: World, s: Step, id: nat)
    requires Orderly(c, w) && Enabled(c, w, s) && !s.Connect? && !s.Captured? && id in w.links
    ensures var r := Apply(c, w, s);
            && id in r.links && r.links[id].accepted == w.links[id].accepted
            && r.desk.history.delivered == w.desk.history.delivered
            && (forall f :: f in r.peers ==> f in w.peers && r.peers[f].id == w.peers[f].id)
  {
    hide DeskOk, PeersOk, NodesPlaced, OwnersOk, QueuesOk, HasLocal,
      ReplaceScreens, CloseEndpoint, Greet, Frame, WriteError, Register, Remove, NodesReplaced, ReadFrame;
    match s
    case LaterMessage(e, m) =>
      if m.ScreensMessage? {
        ReplaceKeeps(w.desk, e, w.peers[e].session.ownerId, m.infos);
      }
    case Close(e) => CloseKeeps(w.desk, e);
    case _ =>
  }

  /** Of what was delivered since, what was for the endpoint; all of it while the connection is live. */
  ghost predicate AccountIs(w: World, e: Endpoint, id: nat, since: nat) {
    && OnlyAt(w, e, id) && since <= |w.desk.history.delivered|
    && var meant := EventsFor(w.desk.history.delivered[since..], e);
       && w.links[id].accepted <= meant
       && (LiveOn(w, e, id) ==> w.links[id].accepted == meant)
  }

  lemma AccountGrows(w: World, r: World, e: Endpoint, id: nat, since: nat)
    requires AccountIs(w, e, id, since) && Accounted(w, r, e, id)
    ensures AccountIs(r, e, id, since)
  {
    hide LiveOn, OnlyAt;
    var was, now := w.desk.history.delivered, r.desk.history.delivered;
    assert now[since..] == was[since..] + now[|was|..];
    EventsForAppend(was[since..], now[|was|..], e);
  }

  lemma AccountStarts(c: Setting, w: World, e: Endpoint)
    requires PeersOk(c, w) && e !in w.peers
    ensures AccountIs(Connected(w, e), e, w.nextId, |w.desk.history.delivered|)
  {
    hide PeerOk;
    assert w.desk.history.delivered[|w.desk.history.delivered|..] == [];
  }

  /**
   * The account of a connection: from the step that opened it on, what is accepted on it
   * is exactly what the router's try-send accepted for its endpoint since, as long as its
   * session is open, and an initial part of that ever after.
   */
  lemma AccountIsDeliveries(c: Setting, config: AppConfig, infos: seq<ScreenInfo>,
                            steps: seq<Step>, states: seq<World>, j: nat, i: nat)
    requires IsRun(c, config, infos, steps, states) && j < i < |states| && steps[j].Connect?
    ensures var e, id, w := steps[j].e, states[j].nextId, states[i];
            && |states[j].desk.history.delivered| <= |w.desk.history.delivered| && id in w.links
            && var meant := EventsFor(w.desk.history.delivered[|states[j].desk.history.delivered|..], e);
            && w.links[id].accepted <= meant
            && (LiveOn(w, e, id) ==> w.links[id].accepted == meant)
  {
    hide Enabled, Apply, Start, EventsFor, LiveOn;
    AccountInRun(c, config, infos, steps, states, j, i);
  }

  lemma {:induction false} AccountInRun(c: Setting, config: AppConfig, infos: seq<ScreenInfo>,
                                        steps: seq<Step>, states: seq<World>, j: nat, i: nat)
    requires IsRun(c, config, infos, steps, states) && j < i < |states| && steps[j].Connect?
    ensures AccountIs(states[i], steps[j].e, states[j].nextId, |states[j].desk.history.delivered|)
    decreases i
  {
    hide Start, AccountIs, DeskOk, NodesPlaced, OwnersOk, QueuesOk, HasLocal, PeersOk, Accounted, OnlyAt, Connected;
    var e, id, since := steps[j].e, states[j].nextId, |states[j].desk.history.delivered|;
    RunOrderly(c, config, infos, steps, states, i - 1);
    if i == j + 1 {
      assert states[i] == Connected(states[j], e);
      AccountStarts(c, states[j], e);
    } else {
      hide Apply, Enabled;
      AccountInRun(c, config, infos, steps, states, j, i - 1);
      assert OnlyAt(states[i - 1], e, id) by { AccountGivesOnly(states[i - 1], e, id, since); }
      StepAccounted(c, states[i - 1], steps[i - 1], e, id);
      AccountGrows(states[i - 1], states[i], e, id, since);
    }
  }

  lemma AccountGivesOnly(w: World, e: Endpoint, id: nat, since: nat)
    requires AccountIs(w, e, id, since)
    ensures OnlyAt(w, e, id)
  {
  }

  lemma StepLinks(c: Setting, w: World, s: Step)
    requires PeersOk(c, w) && Enabled(c, w, s)
    ensures Apply(c, w, s).links.Keys == w.links.Keys + (if s.Connect? then {w.nextId} else {})
  {
    hide ReplaceScreens, CloseEndpoint, Greet, Frame, WriteError, Handle, ReadFrame, PeerOk;
  }

  /** There is no connection but those that some step opened. */
  lemma {:induction false} EveryLinkWasOpened(c: Setting, config: AppConfig, infos: seq<ScreenInfo>,
                                              steps: seq<Step>, states: seq<World>, i: nat, id: nat)
    requires IsRun(c, config, infos, steps, states) && i < |states| && id in states[i].links
    ensures exists j :: 0 <= j < i && steps[j].Connect? && states[j].nextId == id
    decreases i
  {
    hide Apply, Enabled, Orderly, PeersOk, Boot;
    if 0 < i {
      assert PeersOk(c, states[i - 1]) by {
        RunOrderly(c, config, infos, steps, states, i - 1);
        OrderlyGivesPeers(c, states[i - 1]);
      }
      StepLinks(c, states[i - 1], steps[i - 1]);
      if id in states[i - 1].links {
        EveryLinkWasOpened(c, config, infos, steps, states, i - 1, id);
      }
    }
  }

  lemma OrderlyGivesPeers(c: Setting, w: World)
    requires Orderly(c, w)
    ensures PeersOk(c, w)
  {
  }

  /**
   * At every moment of every run, what the client of a connection has injected is a
   * prefix, in order and without repetition, of what the router's try-send accepted for
   * its endpoint since the connection was made. Until its session is ending nothing is
   * lost on the way: all that was accepted has been sent or is queued.
   */
  lemma ClientsSeePrefixes(c: Setting, config: AppConfig, infos: seq<ScreenInfo>,
                           steps: seq<Step>, states: seq<World>, j: nat, i: nat)
    requires RoundTrips(c.codec) && IsRun(c, config, infos, steps, states) && j < i < |states| && steps[j].Connect?
    ensures var e, id, w := steps[j].e, states[j].nextId, states[i];
            && |states[j].desk.history.delivered| <= |w.desk.history.delivered| && id in w.links
            && var meant := EventsFor(w.desk.history.delivered[|states[j].desk.history.delivered|..], e);
            && w.links[id].client.events <= meant
            && (LiveOn(w, e, id) && w.peers[e].session.phase != Ending ==>
                  && w.links[id].client.events <= w.links[id].sent
                  && meant == w.links[id].sent + (if e in w.desk.channels then w.desk.channels[e].queue else []))
  {
    hide Enabled, Apply, Start, Inv, EventsFor, Orderly, LinkOk;
    RunKeeps(c, config, infos, steps, states, i);
    AccountIsDeliveries(c, config, infos, steps, states, j, i);
    var e, id, w := steps[j].e, states[j].nextId, states[i];
    InvGivesFlow(c, w);
    InjectedIsPrefixOfAccepted(c.codec, w.links[id]);
    if LiveOn(w, e, id) && w.peers[e].session.phase != Ending {
      assert PeerFlow(c, w.links[id], if e in w.desk.channels then w.desk.channels[e].queue else []);
    }
  }

  lemma InvGivesFlow(c: Setting, w: World)
    requires Inv(c, w)
    ensures LinksOk(c, w) && FlowOk(c, w)
  {
  }

  /** Only an event that its injector refuses stops a client. */
  lemma StepKeepsReading(c: Setting, w: World, s: Step, id: nat)
    requires RoundTrips(c.codec) && PeersOk(c, w) && LinksOk(c, w) && Enabled(c, w, s)
    requires id in w.links && w.links[id].reading && s != ClientReads(id, false)
    ensures id in Apply(c, w, s).links && Apply(c, w, s).links[id].reading
  {
    hide ReplaceScreens, CloseEndpoint, Greet, Frame, WriteError, Handle, ReadFrame, PeerOk, LinkOk, RoundTrips,
      ClientRead;
    match s
    case ClientReads(other, ok) =>
      if other == id {
        ClientReadInjects(c.codec, w.links[id], ok);
      }
    case _ =>
  }

  /**
   * In a run a client whose injector has refused nothing is still reading, and once it has
   * read all that its stream holds it has injected everything accepted for it that was
   * sent; while its session is not ending, that is everything but what is queued.
   */
  lemma {:induction false} WillingClientsKeepUp(c: Setting, config: AppConfig, infos: seq<ScreenInfo>,
                                                steps: seq<Step>, states: seq<World>, j: nat, i: nat)
    requires RoundTrips(c.codec) && IsRun(c, config, infos, steps, states) && j < i < |states| && steps[j].Connect?
    requires forall k :: j < k < i ==> steps[k] != ClientReads(states[j].nextId, false)
    ensures var e, id, w := steps[j].e, states[j].nextId, states[i];
            && id in w.links && w.links[id].reading
            && (LiveOn(w, e, id) && w.peers[e].session.phase != Ending && w.links[id].consumed == |w.links[id].wire| ==>
                  w.links[id].accepted
                  == w.links[id].client.events + (if e in w.desk.channels then w.desk.channels[e].queue else []))
    decreases i
  {
    hide Start, Inv, PeersOk, LinksOk, LinkOk, Whole, RoundTrips;
    var e, id, w := steps[j].e, states[j].nextId, states[i];
    RunKeeps(c, config, infos, steps, states, i - 1);
    if i == j + 1 {
      assert w == Connected(states[j], e);
    } else {
      hide Apply, Enabled;
      WillingClientsKeepUp(c, config, infos, steps, states, j, i - 1);
      assert PeersOk(c, states[i - 1]) && LinksOk(c, states[i - 1]) by { InvGivesParts(c, states[i - 1]); }
      StepKeepsReading(c, states[i - 1], steps[i - 1], id);
    }
    RunKeeps(c, config, infos, steps, states, i);
    InvGivesParts(c, w);
    if LiveOn(w, e, id) && w.peers[e].session.phase != Ending && w.links[id].consumed == |w.links[id].wire| {
      assert PeerFlow(c, w.links[id], if e in w.desk.channels then w.desk.channels[e].queue else []);
      LinkIsOk(c, w, id);
      CaughtUp(c.codec, w.links[id]);
    }
  }

  lemma LinkIsOk(c: Setting, w: World, id: nat)
    requires LinksOk(c, w) && id in w.links
    ensures LinkOk(c.codec, w.links[id])
  {
  }

  lemma InvGivesParts(c: Setting, w: World)
    requires Inv(c, w)
    ensures PeersOk(c, w) && LinksOk(c, w) && FlowOk(c, w)
  {
  }

  // ----- While every owner has its screens on one endpoint -----

  /** No owner has screens on two endpoints, the host's included. */
  ghost predicate OneEndpointPerOwner(nodes: seq<Node>) {
    forall n, m :: n in nodes && m in nodes && n.screen.endpoint != m.screen.endpoint ==>
      n.screen.key.ownerId != m.screen.key.ownerId
  }

  ghost predicate AllFit(d: Desk) {
    forall i :: 0 <= i < |d.history.delivered| ==>
      Fits(d.history.delivered[i].event, d.history.delivered[i].target.screen)
  }

  /** Multimap and grid agree, the virtual cursor is where it should be, and all that was ever queued fits. */
  ghost predicate InStep(d: Desk) {
    Synced(d.store) && CursorOk(d) && AllFit(d)
  }

  lemma SameStoreInStep(d: Desk, r: Desk)
    requires InStep(d) && AtMostOneDelivery(d, r) && NewDeliveriesFit(d, r) && r.store == d.store && CursorOk(r)
    ensures InStep(r)
  {
    hide Synced, CursorOk, Fits;
  }

  lemma CapturedInStep(d: Desk, event: InputEvent, warpOk: bool)
    requires DeskOk(d) && InStep(d)
    ensures InStep(Handle(d, event, warpOk))
  {
    hide DeskOk, Handle, CursorOk, AllFit, AtMostOneDelivery, NewDeliveriesFit, StoreOk, Exact;
    HandleKeeps(d, event, warpOk);
    SameStoreInStep(d, Handle(d, event, warpOk));
  }

  lemma ReportInStep(d: Desk, e: Endpoint, o: string, infos: seq<ScreenInfo>)
    requires DeskOk(d) && OwnersApart(d.store.nodes, e) && InStep(d)
    ensures InStep(ReplaceScreens(d, e, o, infos, false, false))
  {
    hide DeskOk, ReplaceScreens, CursorOk, StoreOk, Exact, PlaceFirst, OwnersApart;
    ReplaceKeeps(d, e, o, infos);
    RemoveKeepsSynced(d.store, e);
    RegisterKeeps(Remove(d.store, e), e, o, infos, false);
  }

  lemma CloseInStep(d: Desk, e: Endpoint)
    requires DeskOk(d) && OwnersApart(d.store.nodes, e) && InStep(d)
    ensures InStep(CloseEndpoint(d, e))
  {
    hide DeskOk, CloseEndpoint, CursorOk, StoreOk, Exact, OwnersApart, T.RemoveOwners, Without;
    CloseKeeps(d, e);
    RemoveKeepsSynced(d.store, e);
    StoreWithOwners(Remove(d.store, e), d.store.owners - {e});
  }

  lemma StoreWithOwners(st: Store, owners: map<Endpoint, string>)
    requires Synced(st)
    ensures Synced(st.(owners := owners))
  {
  }

  /** Steps that leave nodes, grid and pointer alone. */
  lemma QuietStep(d: Desk, channels: map<Endpoint, Channel>, owners: map<Endpoint, string>, capture: Option<Capture>)
    requires InStep(d)
    ensures InStep(d.(channels := channels, store := d.store.(owners := owners), capture := capture))
  {
    StoreWithOwners(d.store, owners);
  }

  lemma StepInStep(c: Setting, w: World, s: Step)
    requires Orderly(c, w) && Enabled(c, w, s) && OneEndpointPerOwner(w.desk.store.nodes) && InStep(w.desk)
    ensures InStep(Apply(c, w, s).desk)
  {
    hide InStep, DeskOk, PeersOk, NodesPlaced, QueuesOk, HasLocal, OwnersOk,
      Handle, ReplaceScreens, CloseEndpoint, ClientRead, Greet, Frame, WriteError;
    var r := Apply(c, w, s).desk;
    match s
    case LaterMessage(e, m) =>
      if m.ScreensMessage? {
        ReportInStep(w.desk, e, w.peers[e].session.ownerId, m.infos);
      }
    case Close(e) => CloseInStep(w.desk, e);
    case Captured(event, warpOk) => CapturedInStep(w.desk, event, warpOk);
    case _ => QuietStep(w.desk, r.channels, r.store.owners, r.capture);
  }

  /** In each of the first n states no owner has screens on two endpoints. */
  ghost predicate OwnersOnceThroughout(states: seq<World>, n: nat)
    requires n <= |states|
  {
    forall i :: 0 <= i < n ==> OneEndpointPerOwner(states[i].desk.store.nodes)
  }

  lemma {:induction false} RunInStep(c: Setting, config: AppConfig, infos: seq<ScreenInfo>,
                                     steps: seq<Step>, states: seq<World>, i: nat)
    requires IsRun(c, config, infos, steps, states) && i < |states|
    requires OwnersOnceThroughout(states, i)
    ensures InStep(states[i].desk)
    decreases i
  {
    hide Orderly, Apply, Enabled, Start, OneEndpointPerOwner, InStep;
    if i == 0 {
      StartInStep(c, config, infos);
    } else {
      RunInStep(c, config, infos, steps, states, i - 1);
      RunOrderly(c, config, infos, steps, states, i - 1);
      StepInStep(c, states[i - 1], steps[i - 1]);
    }
  }

  lemma StartInStep(c: Setting, config: AppConfig, infos: seq<ScreenInfo>)
    ensures InStep(Start(c, config, infos).desk)
  {
    hide Boot, PlaceFirst;
    BootKeeps(config, c.host, c.hostOwner, infos);
  }

  /**
   * As long as no owner has had screens on two endpoints at once, every move, button and wheel
   * event ever queued to a client has coordinates inside the receiving screen, and moves
   * and buttons carry its index.
   */
  lemma QueuedEventsFit(c: Setting, config: AppConfig, infos: seq<ScreenInfo>,
                        steps: seq<Step>, states: seq<World>, i: nat, k: nat)
    requires IsRun(c, config, infos, steps, states) && i < |states|
    requires OwnersOnceThroughout(states, i) && k < |states[i].desk.history.delivered|
    ensures var x := states[i].desk.history.delivered[k];
            var info := x.target.screen.info;
            match x.event
            case MoveEvent(m) => Inside(m.x, m.y, info) && m.screenIndex == x.target.screen.key.screenIndex
            case ButtonEvent(px, py, index, _, _) => Inside(px, py, info) && index == x.target.screen.key.screenIndex
            case WheelEvent(px, py, _, _) => Inside(px, py, info)
            case KeyEvent(_, _, _, _, _) => true
  {
    hide Apply, Enabled, Start, OneEndpointPerOwner, Synced, CursorOk;
    RunInStep(c, config, infos, steps, states, i);
    var x := states[i].desk.history.delivered[k];
    assert Fits(x.event, x.target.screen);
  }

  /**
   * And while a remote screen is active the virtual cursor exists, is keyed to it and is
   * inside it, so putting it at the origin is never needed.
   */
  lemma CursorNeverReset(c: Setting, config: AppConfig, infos: seq<ScreenInfo>,
                         steps: seq<Step>, states: seq<World>, i: nat)
    requires IsRun(c, config, infos, steps, states) && i < |states|
    requires OwnersOnceThroughout(states, i) && RemoteActive(states[i].desk)
    ensures var d := states[i].desk;
            && d.point == Some(CursorOn(d.active.value, d.point))
            && Inside(d.point.value.x, d.point.value.y, d.active.value.screen.info)
  {
    hide Apply, Enabled, Start, OneEndpointPerOwner, Synced, AllFit;
    RunInStep(c, config, infos, steps, states, i);
  }

  /** And the multimap and the grid hold exactly the same screens. */
  lemma StoreMatchesGrid(c: Setting, config: AppConfig, infos: seq<ScreenInfo>,
                         steps: seq<Step>, states: seq<World>, i: nat)
    requires IsRun(c, config, infos, steps, states) && i < |states|
    requires OwnersOnceThroughout(states, i)
    ensures var st := states[i].desk.store;
            && |st.nodes| == |st.grid.screens|
            && KeysOf(st.nodes) == st.grid.screens.Keys
            && forall n :: n in st.nodes ==> Matches(n.screen, st.grid.screens[n.screen.key])
  {
    hide Apply, Enabled, Start, OneEndpointPerOwner, CursorOk, AllFit, StoreOk;
    RunInStep(c, config, infos, steps, states, i);
    SyncedCounts(states[i].desk.store);
  }

  /**
   * A report of a served peer always gets every drawable screen into the grid, on a cell
   * of its own, where it is remembered, and disturbs no other owner's screen, provided no
   * other endpoint has screens of that owner at that moment.
   */
  lemma ReportsArePlaced(c: Setting, config: AppConfig, infos: seq<ScreenInfo>,
                         steps: seq<Step>, states: seq<World>, i: nat)
    requires IsRun(c, config, infos, steps, states) && i < |steps|
    requires steps[i].LaterMessage? && steps[i].message.ScreensMessage?
    requires forall n :: n in states[i].desk.store.nodes && n.screen.endpoint != steps[i].e ==>
               n.screen.key.ownerId != states[i].peers[steps[i].e].session.ownerId
    ensures var e, reported := steps[i].e, steps[i].message.infos;
            var o := states[i].peers[e].session.ownerId;
            var g, after := states[i].desk.store.grid, states[i + 1].desk.store;
            && (forall j :: 0 <= j < |reported| ==>
                  (ScreenKey(o, j) in after.grid.screens <==> ValidRect(reported[j])))
            && (forall j :: 0 <= j < |reported| && ValidRect(reported[j]) ==>
                  var s := after.grid.screens[ScreenKey(o, j)];
                  && s.info == reported[j] && !s.local
                  && FindLayout(after.config.screens, ScreenKey(o, j)) == Some(s.cell))
            && (forall k: ScreenKey :: k.ownerId != o ==>
                  (k in after.grid.screens <==> k in g.screens)
                  && (k in g.screens ==> after.grid.screens[k] == g.screens[k]))
  {
    hide Start, ReplaceScreens, PlaceFirst, DeskOk, Orderly;
    RunOrderly(c, config, infos, steps, states, i);
    var w, e := states[i], steps[i].e;
    ReportPlaced(c, w, e, steps[i].message.infos);
    var o, reported := w.peers[e].session.ownerId, steps[i].message.infos;
    assert states[i + 1].desk == ReplaceScreens(w.desk, e, o, reported, false, false);
  }

  /** A peer's own screens are all gone from the grid before its new ones are placed, and only they. */
  lemma OwnerGone(c: Setting, w: World, e: Endpoint)
    requires StoreOk(w.desk.store) && NodesPlaced(c, w)
    requires e in w.peers && e != c.host
    requires forall n :: n in w.desk.store.nodes && n.screen.endpoint != e ==>
               n.screen.key.ownerId != w.peers[e].session.ownerId
    ensures var o := w.peers[e].session.ownerId;
            var g, r := w.desk.store.grid, Remove(w.desk.store, e).grid;
            && OwnerAbsent(r, o)
            && (forall k: ScreenKey :: k.ownerId != o ==>
                  (k in r.screens <==> k in g.screens) && (k in g.screens ==> r.screens[k] == g.screens[k]))
  {
    var o := w.peers[e].session.ownerId;
    var g, r := w.desk.store.grid, Remove(w.desk.store, e).grid;
    forall k | k in r.screens ensures k.ownerId != o {
      var n :| n in w.desk.store.nodes && Matches(n.screen, g.screens[k]);
      assert g.screens[k].key == k;
      assert n.screen.endpoint == e ==> n.screen.key.ownerId in OwnersOf(w.desk.store.nodes, e);
    }
    forall n | n in w.desk.store.nodes && n.screen.endpoint == e ensures n.screen.key.ownerId == o {
      assert NodeOk(c, w, n);
    }
    assert OwnersOf(w.desk.store.nodes, e) <= {o};
  }

  lemma ReportPlaced(c: Setting, w: World, e: Endpoint, reported: seq<ScreenInfo>)
    requires Orderly(c, w) && InPhase(w, e, Serving)
    requires forall n :: n in w.desk.store.nodes && n.screen.endpoint != e ==>
               n.screen.key.ownerId != w.peers[e].session.ownerId
    ensures var o := w.peers[e].session.ownerId;
            var g, after := w.desk.store.grid, ReplaceScreens(w.desk, e, o, reported, false, false).store;
            && (forall j :: 0 <= j < |reported| ==>
                  (ScreenKey(o, j) in after.grid.screens <==> ValidRect(reported[j])))
            && (forall j :: 0 <= j < |reported| && ValidRect(reported[j]) ==>
                  var s := after.grid.screens[ScreenKey(o, j)];
                  && s.info == reported[j] && !s.local
                  && FindLayout(after.config.screens, ScreenKey(o, j)) == Some(s.cell))
            && (forall k: ScreenKey :: k.ownerId != o ==>
                  (k in after.grid.screens <==> k in g.screens)
                  && (k in g.screens ==> after.grid.screens[k] == g.screens[k]))
  {
    hide ReplaceScreens, PlaceFirst, StoreOk, NodesPlaced, QueuesOk, OwnersOk, HasLocal, Register, CellFor;
    var o := w.peers[e].session.ownerId;
    ServedPeer(c, w, e);
    OwnerGone(c, w, e);
    RemoveKeepsOk(w.desk.store, e);
    ReplaceKeeps(w.desk, e, o, reported);
    RemotePeerIsPlaced(Remove(w.desk.store, e), e, o, reported);
  }

  lemma ServedPeer(c: Setting, w: World, e: Endpoint)
    requires PeersOk(c, w) && InPhase(w, e, Serving)
    ensures e != c.host
  {
  }
}
