/** A host with one client to its right, as a desk the laws of the router apply to. */
module Examples {
  import opened Core
  import opened Config
  import opened EntryMap
  import opened Screens
  import opened StoreLaws
  import opened Input
  import opened InputLaws
  import opened PointerLaws
  import opened Gestures
  import T = Topology

  const HOST_INFO := ScreenInfo(0, 0, 1920, 1080, 72, "host", true)
  const PEER_INFO := ScreenInfo(0, 0, 2560, 1440, 72, "peer", true)
  const HOST_KEY := ScreenKey("host", 0)
  const PEER_KEY := ScreenKey("peer", 0)
  const ORIGIN := GridPosition(0, 0)
  const RIGHT_OF_IT := GridPosition(1, 0)
  const HOST_NODE := Node(0, VirtualScreen(1, HOST_KEY, ORIGIN, true, HOST_INFO))
  const PEER_NODE := Node(1, VirtualScreen(2, PEER_KEY, RIGHT_OF_IT, false, PEER_INFO))

  function SideBySideStore(): Store {
    Store(AppConfig("host", [ScreenLayout(HOST_KEY, ORIGIN), ScreenLayout(PEER_KEY, RIGHT_OF_IT)], []),
          [HOST_NODE, PEER_NODE],
          T.Grid(map[HOST_KEY := T.TopologyScreen(HOST_KEY, ORIGIN, HOST_INFO, true),
                     PEER_KEY := T.TopologyScreen(PEER_KEY, RIGHT_OF_IT, PEER_INFO, false)],
                 map[ORIGIN := HOST_KEY, RIGHT_OF_IT := PEER_KEY]),
          map[2 := "peer"], 2)
  }

  /** The host's screen is active, the client's queue is empty. */
  function SideBySide(): Desk {
    Desk(SideBySideStore(), map[2 := Channel([], true)], Some(Capture([false], [])),
         Some(HOST_NODE), Some(ScreenPoint(HOST_KEY, 0, 0)), None, None, History([], 0, 0))
  }

  lemma SideBySideGrid()
    ensures T.Inverse(SideBySideStore().grid) && Exact(SideBySideStore().nodes, SideBySideStore().grid)
  {
    assert HOST_KEY != PEER_KEY && ORIGIN != RIGHT_OF_IT;
  }

  lemma SideBySideNodes()
    ensures var st := SideBySideStore(); NodesOk(st.nodes, st.nextId) && Covered(st.nodes, st.grid)
  {
    var st := SideBySideStore();
    assert st.nodes[0] == HOST_NODE && st.nodes[1] == PEER_NODE;
    assert Matches(HOST_NODE.screen, st.grid.screens[HOST_KEY]) && Matches(PEER_NODE.screen, st.grid.screens[PEER_KEY]);
  }

  lemma SideBySideLayout()
    ensures Remembered(SideBySideStore().config.screens, SideBySideStore().grid)
  {
    var layouts := SideBySideStore().config.screens;
    assert HOST_KEY != PEER_KEY;
    LayoutIndexUnique(layouts, HOST_KEY, 0);
    LayoutIndexUnique(layouts, PEER_KEY, 1);
  }

  lemma SideBySideSynced()
    ensures Synced(SideBySideStore())
  {
    hide T.Inverse, Exact, NodesOk, Covered, Remembered, SideBySideStore;
    SideBySideGrid();
    SideBySideNodes();
    SideBySideLayout();
  }

  lemma SideBySideOk()
    ensures DeskOk(SideBySide()) && Synced(SideBySideStore()) && CursorOk(SideBySide())
  {
    hide StoreOk, Exact;
    SideBySideSynced();
    assert SideBySideStore().nodes[0] == HOST_NODE;
  }

  const BORDER_PIXEL := ScreenPoint(HOST_KEY, 1919, 540)
  const BORDER_SAMPLE := MouseMove(1919, 540, 0, 0, 0)

  /** 540 of 1080 becomes 720 of 1440. */
  lemma BorderLeadsToPeer()
    ensures T.HitEdge(SideBySideStore().grid, BORDER_PIXEL) == Some(Right)
    ensures T.MapEntryPoint(SideBySideStore().grid, BORDER_PIXEL, Right) == T.Entry(ScreenPoint(PEER_KEY, 0, 720))
    ensures Find(SideBySideStore().nodes, PEER_KEY) == Some(PEER_NODE)
  {
    var st := SideBySideStore();
    assert T.NeighborCell(ORIGIN, Right) == RIGHT_OF_IT;
    assert T.FindNeighbor(st.grid, HOST_KEY, Right) == Some(PEER_KEY);
    RoundQuotientUnique(540 * 1439, 1079, 720);
    assert EntryCoordinate(540, 1080, 1440) == 720;
    assert st.nodes[1..][0] == PEER_NODE;
  }

  /** Out at the middle of the right border: the client is sent its own left border. */
  lemma LeavesToTheRight(warpOk: bool)
    ensures Leaves(SideBySide(), BORDER_SAMPLE, Right)
    ensures var away := Handle(SideBySide(), MoveEvent(BORDER_SAMPLE), warpOk);
            && away.active == Some(PEER_NODE) && away.point == Some(ScreenPoint(PEER_KEY, 0, 720))
            && away.channels[2].queue == [MoveEvent(MouseMove(0, 720, 0, 0, 0))]
  {
    BorderLeadsToPeer();
  }

  /** And 19 pixels straight back: the OS cursor is put at (1919, 540) again. */
  lemma ComesBackToThePixel(warpOk: bool, backOk: bool)
    ensures var away := Handle(SideBySide(), MoveEvent(BORDER_SAMPLE), warpOk);
            var home := Handle(away, MoveEvent(MouseMove(1900, 540, 0, 0, 0)), backOk);
            && home.active == Some(HOST_NODE) && home.point == Some(ScreenPoint(HOST_KEY, 1919, 540))
            && home.capture.Some?
            && |home.capture.value.warps| > 0
            && home.capture.value.warps[|home.capture.value.warps| - 1] == WarpCommand(0, 1919, 540, backOk)
  {
    hide Handle, StoreOk, Exact, CursorOk, T.MapEntryPoint, T.HitEdge, Leaves;
    SideBySideOk();
    BorderLeadsToPeer();
    LeavesToTheRight(warpOk);
    var m, back := BORDER_SAMPLE, MouseMove(1900, 540, 0, 0, 0);
    assert LocalPoint(HOST_NODE, m) == ScreenPoint(HOST_KEY, 1919, 540);
    LeavingEnters(SideBySide(), m, Right, warpOk);
    StraightBackComesHome(SideBySide(), m, Right, warpOk, Sample(back, backOk));
    assert Find(SideBySideStore().nodes, HOST_KEY) == Some(HOST_NODE);
  }

  /**
   * A sample already on its way when the OS cursor is put on a border pixel, and naming
   * that very pixel, is taken for the echo; the echo itself then crosses again.
   */
  lemma EchoAfterStraySampleCrosses(warpOk: bool)
    ensures var home := SwitchActive(SideBySide(), BORDER_PIXEL, true);
            var stray := Handle(home, MoveEvent(BORDER_SAMPLE), warpOk);
            var echo := Handle(stray, MoveEvent(BORDER_SAMPLE), warpOk);
            && home.active == Some(HOST_NODE) && home.pendingWarp == Some(BORDER_PIXEL)
            && stray.active == Some(HOST_NODE) && stray.history.suppressed == 1
            && echo.active == Some(PEER_NODE)
  {
    hide Handle, SwitchActive, StoreOk, LeadsAcross;
    SideBySideOk();
    BorderLeadsToPeer();
    var d, home := SideBySide(), SwitchActive(SideBySide(), BORDER_PIXEL, true);
    var events := [Timed(MoveEvent(BORDER_SAMPLE), warpOk)];
    assert Find(d.store.nodes, HOST_KEY) == Some(HOST_NODE);
    assert Names(HOST_NODE, events[0].event, BORDER_PIXEL) && events[..0] == [];
    WarpIsAwaited(d, BORDER_PIXEL);
    EventsAtHome(home, BORDER_PIXEL, events);
    assert events[..|events| - 1] == [] && HandleAll(home, []) == home;
    assert HandleAll(home, events) == Handle(home, MoveEvent(BORDER_SAMPLE), warpOk);
    SampleOnPixel(home, HandleAll(home, events), BORDER_PIXEL, false, BORDER_SAMPLE, warpOk);
    StraySampleLeads();
    SwitchGoes(HandleAll(home, events).(lastMouse := Some(BORDER_SAMPLE), point := Some(BORDER_PIXEL)),
               ScreenPoint(PEER_KEY, 0, 720), warpOk);
  }

  lemma StraySampleLeads()
    ensures LeadsAcross(SideBySideStore().grid, BORDER_PIXEL)
  {
    BorderLeadsToPeer();
  }
}
