/** What one captured event does to the pointer, for every event on every screen. */
module PointerLaws {
  import opened Core
  import opened Screens
  import opened StoreLaws
  import opened Input
  import opened InputLaws
  import T = Topology

  // ----- Going to a screen -----

  /** Whether the endpoint's queue takes an event: its writer lives and fewer than ten events wait. */
  predicate HasRoom(d: Desk, e: Endpoint) {
    e in d.channels && d.channels[e].open && |d.channels[e].queue| < 10
  }

  /** The event is queued for the node if its endpoint has room, and nothing is if not. */
  ghost predicate Sends(d: Desk, r: Desk, n: Node, event: InputEvent) {
    var e := n.screen.endpoint;
    if HasRoom(d, e) then
      && r.channels.Keys == d.channels.Keys
      && r.channels[e] == Channel(d.channels[e].queue + [event], true)
      && (forall f :: f in d.channels && f != e ==> r.channels[f] == d.channels[f])
      && r.history.delivered == d.history.delivered + [Delivery(n, event)]
    else SendsNothing(d, r)
  }

  ghost predicate SendsNothing(d: Desk, r: Desk) {
    r.channels == d.channels && r.history.delivered == d.history.delivered
  }

  /** The capture, if attached, is told one more mode, and to put the OS cursor where the warps say. */
  ghost predicate Tells(d: Desk, r: Desk, remote: bool, warps: seq<WarpCommand>) {
    && (d.capture.None? ==> r.capture.None?)
    && (d.capture.Some? ==>
          && r.capture.Some?
          && r.capture.value.modes == d.capture.value.modes + [remote]
          && r.capture.value.warps == d.capture.value.warps + warps)
  }

  /**
   * The pointer is at the pixel of the first screen with its key. A client is sent the
   * pixel, and no echo is awaited any more; on the host the OS cursor is put there, and
   * its echo awaited exactly if that is carried out.
   */
  ghost predicate WentTo(d: Desk, r: Desk, n: Node, p: ScreenPoint, warpOk: bool) {
    && r.active == Some(n) && r.point == Some(p)
    && r.store == d.store && r.lastMouse == d.lastMouse
    && (if n.screen.local then
          && SendsNothing(d, r)
          && Tells(d, r, false, [WarpCommand(p.key.screenIndex, p.x, p.y, warpOk)])
          && r.pendingWarp == (if d.capture.Some? && warpOk then Some(p) else d.pendingWarp)
        else
          && Sends(d, r, n, MoveEvent(MouseMove(p.x, p.y, p.key.screenIndex, 0, 0)))
          && Tells(d, r, true, [])
          && r.pendingWarp.None?)
  }

  lemma SwitchGoesTo(d: Desk, p: ScreenPoint, warpOk: bool)
    ensures Find(d.store.nodes, p.key).None? ==> SwitchActive(d, p, warpOk) == d
    ensures Find(d.store.nodes, p.key).Some? ==>
              WentTo(d, SwitchActive(d, p, warpOk), Find(d.store.nodes, p.key).value, p, warpOk)
  {
  }

  /** Crossing from the point through the edge: the screen beyond is found, and entered at the mapped pixel. */
  ghost predicate Crossed(d: Desk, r: Desk, from: ScreenPoint, e: Edge, warpOk: bool) {
    && T.MapEntryPoint(d.store.grid, from, e).Entry?
    && var p := T.MapEntryPoint(d.store.grid, from, e).point;
    && T.FindNeighbor(d.store.grid, from.key, e) == Some(p.key)
    && Find(d.store.nodes, p.key).Some? && p.key != from.key
    && WentTo(d, r, Find(d.store.nodes, p.key).value, p, warpOk)
  }

  lemma CrossingIs(d: Desk, from: ScreenPoint, e: Edge, warpOk: bool)
    requires StoreOk(d.store) && T.MapEntryPoint(d.store.grid, from, e).Entry?
    ensures Crossed(d, SwitchActive(d, T.MapEntryPoint(d.store.grid, from, e).point, warpOk), from, e, warpOk)
  {
    hide SwitchActive, WentTo;
    var p := T.MapEntryPoint(d.store.grid, from, e).point;
    T.EntryLandsInside(d.store.grid, from, e);
    T.NeighborIsTheAdjacentScreen(d.store.grid, from.key, e, from.key);
    FindGridScreen(d.store, p.key);
    SwitchGoesTo(d, p, warpOk);
  }

  /** The point is on or beyond an edge with a screen beyond it, so a sample there crosses unless it is swallowed. */
  predicate LeadsAcross(g: T.Grid, p: ScreenPoint) {
    T.HitEdge(g, p).Some? && T.MapEntryPoint(g, p, T.HitEdge(g, p).value).Entry?
  }

  lemma LeadsToNeighbor(g: T.Grid, p: ScreenPoint)
    requires T.Inverse(g)
    ensures LeadsAcross(g, p) <==> T.HitEdge(g, p).Some? && T.FindNeighbor(g, p.key, T.HitEdge(g, p).value).Some?
  {
  }

  // ----- Motion on a client's screen -----

  /** The change a sample stands for: its raw deltas if it has any, else how far the absolute position has moved. */
  predicate Moves(last: Option<MouseMove>, m: MouseMove, dx: int, dy: int) {
    if m.deltaX != 0 || m.deltaY != 0 then dx == m.deltaX && dy == m.deltaY
    else if last.Some? then dx == m.x - last.value.x && dy == m.y - last.value.y
    else dx == 0 && dy == 0
  }

  /** The cursor, which is put at the first pixel should it not be on the active screen. */
  predicate CursorAt(d: Desk, c: ScreenPoint)
    requires d.active.Some?
  {
    && c.key == d.active.value.screen.key
    && (if d.point.Some? && d.point.value.key == c.key then c == d.point.value else c.x == 0 && c.y == 0)
  }

  /** The nearest pixel of the screen. */
  predicate NearestPixel(p: ScreenPoint, x: int, y: int, info: ScreenInfo) {
    && p.x == (if x < 0 then 0 else if info.width <= x then info.width - 1 else x)
    && p.y == (if y < 0 then 0 else if info.height <= y then info.height - 1 else y)
  }

  /** The cursor stopped on the nearest pixel of the screen it was on, which its client is sent. */
  ghost predicate Stayed(d: Desk, r: Desk, next: ScreenPoint)
    requires d.active.Some?
  {
    && r.active == d.active && r.capture == d.capture && r.pendingWarp == d.pendingWarp
    && r.store == d.store && r.lastMouse == d.lastMouse
    && r.point.Some? && r.point.value.key == next.key
    && NearestPixel(r.point.value, next.x, next.y, d.active.value.screen.info)
    && Sends(d, r, d.active.value,
             MoveEvent(MouseMove(r.point.value.x, r.point.value.y, next.key.screenIndex, 0, 0)))
  }

  lemma StayingIs(d: Desk, next: ScreenPoint)
    requires DeskOk(d) && RemoteActive(d) && d.point.Some? && d.point.value.key == next.key
    ensures Stayed(d, StayRemote(d, d.active.value, next.x, next.y), next)
  {
    hide T.Inverse, Covered, Remembered, Ordered, ModeTold, WarpsAccounted;
    assert ValidRect(d.active.value.screen.info);
  }

  lemma CursorGoes(d: Desk, next: ScreenPoint, warpOk: bool)
    requires DeskOk(d) && RemoteActive(d) && d.point.Some? && d.point.value.key == next.key
    ensures if LeadsAcross(d.store.grid, next) then
              Crossed(d, MoveCursorTo(d, next, warpOk), next, T.HitEdge(d.store.grid, next).value, warpOk)
            else Stayed(d, MoveCursorTo(d, next, warpOk), next)
  {
    hide SwitchActive, StayRemote, Crossed, Stayed, T.HitEdge, T.MapEntryPoint, ModeTold, WarpsAccounted;
    if LeadsAcross(d.store.grid, next) {
      CrossingIs(d, next, T.HitEdge(d.store.grid, next).value, warpOk);
    } else {
      StayingIs(d, next);
    }
  }

  /** The sample is noted, the cursor put on the active screen. */
  function Noted(d: Desk, m: MouseMove, c: ScreenPoint): Desk {
    d.(point := Some(c), lastMouse := Some(m))
  }

  /**
   * A sample on a client's screen. Without motion it is only noted. Else the cursor goes
   * where the motion takes it: across the edge it gets to or beyond, if a screen lies
   * there, be it the host's or another client's; and if not, to the nearest pixel of the
   * same screen.
   */
  lemma RemoteSample(d: Desk, m: MouseMove, warpOk: bool, c: ScreenPoint, dx: int, dy: int)
    requires DeskOk(d) && RemoteActive(d) && CursorAt(d, c) && Moves(d.lastMouse, m, dx, dy)
    ensures var r := Handle(d, MoveEvent(m), warpOk);
            var next := ScreenPoint(c.key, c.x + dx, c.y + dy);
            if dx == 0 && dy == 0 then r == Noted(d, m, c)
            else if LeadsAcross(d.store.grid, next) then
              Crossed(Noted(d, m, c), r, next, T.HitEdge(d.store.grid, next).value, warpOk)
            else Stayed(Noted(d, m, c), r, next)
  {
    hide MoveCursorTo, Crossed, Stayed, LeadsAcross, StoreOk;
    assert CursorOn(d.active.value, d.point) == c && Motion(d.lastMouse, m) == (dx, dy);
    if dx != 0 || dy != 0 {
      CursorGoes(Noted(d, m, c), ScreenPoint(c.key, c.x + dx, c.y + dy), warpOk);
    }
  }

  /** So the active screen changes exactly when a screen is adjacent there, and then to that one. */
  lemma RemoteCrossesExactlyWhen(d: Desk, m: MouseMove, warpOk: bool, c: ScreenPoint, dx: int, dy: int)
    requires DeskOk(d) && RemoteActive(d) && CursorAt(d, c) && Moves(d.lastMouse, m, dx, dy)
    ensures var r := Handle(d, MoveEvent(m), warpOk);
            var next := ScreenPoint(c.key, c.x + dx, c.y + dy);
            var e := T.HitEdge(d.store.grid, next);
            if (dx != 0 || dy != 0) && e.Some? && T.FindNeighbor(d.store.grid, next.key, e.value).Some? then
              var k := T.FindNeighbor(d.store.grid, next.key, e.value).value;
              r.active.Some? && r.active == Find(d.store.nodes, k) && k != d.active.value.screen.key
            else r.active == d.active
  {
    hide Handle, T.HitEdge, T.MapEntryPoint, StoreOk, T.FindNeighbor;
    RemoteSample(d, m, warpOk, c, dx, dy);
    StoreHasGrid(d.store);
    LeadsToNeighbor(d.store.grid, ScreenPoint(c.key, c.x + dx, c.y + dy));
  }

  // ----- Motion at home -----

  /**
   * A sample on the host. The screen it names is the one it was captured on. If it is the
   * echo of a warp it is swallowed; else if it is on an edge with a screen beyond, the
   * pointer crosses; else it is only noted.
   */
  lemma LocalSample(d: Desk, m: MouseMove, warpOk: bool)
    requires DeskOk(d) && d.active.Some? && d.active.value.screen.local
    ensures var r := Handle(d, MoveEvent(m), warpOk);
            var p := ScreenPoint(ScreenKey(d.active.value.screen.key.ownerId, m.screenIndex), m.x, m.y);
            if d.pendingWarp == Some(p) then
              r == Noted(d, m, p).(pendingWarp := None,
                                   history := d.history.(suppressed := d.history.suppressed + 1))
            else if LeadsAcross(d.store.grid, p) then
              Crossed(Noted(d, m, p), r, p, T.HitEdge(d.store.grid, p).value, warpOk)
            else r == Noted(d, m, p)
  {
    hide SwitchActive, Crossed, T.HitEdge, T.MapEntryPoint, StoreOk;
    var p := ScreenPoint(ScreenKey(d.active.value.screen.key.ownerId, m.screenIndex), m.x, m.y);
    if LeadsAcross(d.store.grid, p) {
      CrossingIs(Noted(d, m, p), p, T.HitEdge(d.store.grid, p).value, warpOk);
    }
  }

  lemma StoreHasGrid(st: Store)
    requires StoreOk(st)
    ensures T.Inverse(st.grid)
  {
  }

  // ----- Keys, buttons and the wheel -----

  /** The pointer is at the first local screen's first pixel, or nowhere if there is none; nothing is awaited. */
  ghost predicate Home(r: Desk) {
    && r.lastMouse.None? && r.pendingWarp.None?
    && (match FirstLocal(r.store.nodes)
        case None => r.active.None? && r.point.None?
        case Some(n) => r.active == Some(n) && r.point == Some(ScreenPoint(n.screen.key, 0, 0)))
  }

  lemma GoingHome(d: Desk)
    ensures var r := ActivateFirstLocal(d);
            Home(r) && r.store == d.store && SendsNothing(d, r) && Tells(d, r, false, [])
  {
  }

  /**
   * Pressing F12 on a client's screen brings the pointer home, and is sent to nobody.
   * Anywhere else it does nothing.
   */
  lemma F12ComesHome(d: Desk, modifiers: nat, nativeCode: nat, repeated: bool, warpOk: bool)
    ensures var r := Handle(d, KeyEvent(F12, modifiers, nativeCode, repeated, false), warpOk);
            if RemoteActive(d) then Home(r) && r.store == d.store && SendsNothing(d, r) && Tells(d, r, false, [])
            else r == d
  {
    hide ActivateFirstLocal, Home, Tells;
    if RemoteActive(d) {
      GoingHome(d);
    }
  }

  /** The pointer, and what the capture has been told, are as they were. */
  ghost predicate PointerRests(d: Desk, r: Desk) {
    && r.active == d.active && r.point == d.point && r.lastMouse == d.lastMouse
    && r.pendingWarp == d.pendingWarp && r.capture == d.capture
  }

  /** Every other key event, the release of F12 included, goes to the client unchanged and moves nothing. */
  lemma OtherKeysGoOut(d: Desk, key: Key, modifiers: nat, nativeCode: nat, repeated: bool, release: bool, warpOk: bool)
    requires key != F12 || release
    ensures var event := KeyEvent(key, modifiers, nativeCode, repeated, release);
            var r := Handle(d, event, warpOk);
            && PointerRests(d, r) && r.store == d.store
            && (if RemoteActive(d) then Sends(d, r, d.active.value, event) else r == d)
  {
  }

  /** Buttons go to the client at the cursor's pixel and on its screen, unless there is no cursor on that screen. */
  lemma ButtonsGoOut(d: Desk, x: int, y: int, screenIndex: nat, button: Button, release: bool, warpOk: bool)
    ensures var r := Handle(d, ButtonEvent(x, y, screenIndex, button, release), warpOk);
            && PointerRests(d, r) && r.store == d.store
            && (!RemoteActive(d) ==> r == d)
            && (RemoteActive(d) && d.point.Some? && d.point.value.key == d.active.value.screen.key ==>
                  var p := d.point.value;
                  Sends(d, r, d.active.value, ButtonEvent(p.x, p.y, p.key.screenIndex, button, release)))
            && (RemoteActive(d) && (d.point.None? || d.point.value.key != d.active.value.screen.key) ==>
                  Sends(d, r, d.active.value, ButtonEvent(x, y, screenIndex, button, release)))
  {
  }

  /** So does the wheel, which carries no screen index. */
  lemma WheelGoesOut(d: Desk, x: int, y: int, deltaX: int, deltaY: int, warpOk: bool)
    ensures var r := Handle(d, WheelEvent(x, y, deltaX, deltaY), warpOk);
            && PointerRests(d, r) && r.store == d.store
            && (!RemoteActive(d) ==> r == d)
            && (RemoteActive(d) && d.point.Some? && d.point.value.key == d.active.value.screen.key ==>
                  Sends(d, r, d.active.value, WheelEvent(d.point.value.x, d.point.value.y, deltaX, deltaY)))
            && (RemoteActive(d) && (d.point.None? || d.point.value.key != d.active.value.screen.key) ==>
                  Sends(d, r, d.active.value, WheelEvent(x, y, deltaX, deltaY)))
  {
  }

  /** While no screen is active nothing that is captured has any effect. */
  lemma NothingActive(d: Desk, event: InputEvent, warpOk: bool)
    requires d.active.None?
    ensures Handle(d, event, warpOk) == d
  {
  }
}
