/** What the router keeps, event by event, and what whole gestures amount to. */
module InputLaws {
  import opened Core
  import opened Screens
  import opened StoreLaws
  import opened Input
  import T = Topology

  // ----- Invariants -----

  /** The active pointer is null or points at a live node. */
  ghost predicate ActiveLive(d: Desk) {
    d.active.Some? ==> d.active.value in d.store.nodes
  }

  /** The last mode commanded to the attached capture says whether the active screen is remote. */
  ghost predicate ModeTold(d: Desk) {
    d.capture.Some? ==>
      d.capture.value.modes != [] && d.capture.value.modes[|d.capture.value.modes| - 1] == RemoteActive(d)
  }

  /** An echo is awaited only on a local screen, and every suppression was paid for by a warp. */
  ghost predicate WarpsAccounted(d: Desk) {
    && (d.pendingWarp.Some? ==> d.active.Some? && d.active.value.screen.local)
    && d.history.suppressed + (if d.pendingWarp.Some? then 1 else 0) <= d.history.warps
  }

  ghost predicate DeskOk(d: Desk) {
    StoreOk(d.store) && ActiveLive(d) && ModeTold(d) && WarpsAccounted(d)
  }

  /** On a remote screen the virtual cursor exists, is keyed to it and lies inside it, and there is a baseline. */
  ghost predicate CursorOk(d: Desk) {
    RemoteActive(d) ==>
      && d.point.Some?
      && d.point.value.key == d.active.value.screen.key
      && Inside(d.point.value.x, d.point.value.y, d.active.value.screen.info)
      && d.lastMouse.Some?
  }

  /** The event makes sense on the screen: coordinates inside it, and its own index where one is carried. */
  ghost predicate Fits(event: InputEvent, v: VirtualScreen) {
    match event
    case MoveEvent(m) => Inside(m.x, m.y, v.info) && m.screenIndex == v.key.screenIndex
    case ButtonEvent(x, y, i, _, _) => Inside(x, y, v.info) && i == v.key.screenIndex
    case WheelEvent(x, y, _, _) => Inside(x, y, v.info)
    case KeyEvent(_, _, _, _, _) => true
  }

  /** Between the two states at most one event was accepted: for the screen now active, on its queue alone. */
  ghost predicate AtMostOneDelivery(d: Desk, d': Desk) {
    || (d'.channels == d.channels && d'.history.delivered == d.history.delivered)
    || (&& RemoteActive(d')
        && var target := d'.active.value;
           var e := target.screen.endpoint;
        && |d'.history.delivered| == |d.history.delivered| + 1
        && var event := d'.history.delivered[|d.history.delivered|].event;
        && d'.history.delivered == d.history.delivered + [Delivery(target, event)]
        && e in d.channels && Accepts(d.channels[e])
        && d'.channels == d.channels[e := d.channels[e].(queue := d.channels[e].queue + [event])])
  }

  /** Whatever was newly accepted fits the screen it is for. */
  ghost predicate NewDeliveriesFit(d: Desk, d': Desk) {
    && |d.history.delivered| <= |d'.history.delivered|
    && forall i :: |d.history.delivered| <= i < |d'.history.delivered| ==>
         Fits(d'.history.delivered[i].event, d'.history.delivered[i].target.screen)
  }

  /** A good outcome of one pointer event. */
  ghost predicate Kept(d: Desk, r: Desk) {
    && DeskOk(r) && AtMostOneDelivery(d, r) && r.store == d.store && r.active.Some?
    && (Synced(d.store) ==> CursorOk(r) && NewDeliveriesFit(d, r))
  }

  /** Noting a sample first makes no difference to whether the outcome is good. */
  lemma KeptFromSeen(d: Desk, point: ScreenPoint, m: MouseMove, r: Desk)
    requires Kept(d.(point := Some(point), lastMouse := Some(m)), r)
    ensures Kept(d, r)
  {
  }

  lemma EnqueueDelivers(d: Desk, target: Node, event: InputEvent)
    requires d.active == Some(target)
    ensures AtMostOneDelivery(d, Enqueue(d, target, event))
    ensures Fits(event, target.screen) ==> NewDeliveriesFit(d, Enqueue(d, target, event))
    ensures DeskOk(d) ==> DeskOk(Enqueue(d, target, event))
    ensures var r := Enqueue(d, target, event);
            r.active == d.active && r.point == d.point && r.lastMouse == d.lastMouse && r.store == d.store
  {
  }

  lemma ActivateFirstLocalKeeps(d: Desk)
    requires StoreOk(d.store) && d.history.suppressed <= d.history.warps
    ensures var r := ActivateFirstLocal(d);
            && DeskOk(r) && !RemoteActive(r)
            && (r.active.None? <==> forall n :: n in d.store.nodes ==> !n.screen.local)
            && r.channels == d.channels && r.history == d.history && r.store == d.store
  {
  }

  lemma WarpKeeps(d: Desk, warpOk: bool)
    requires DeskOk(d)
    ensures var r := WarpToActivePoint(d, warpOk);
            && DeskOk(r) && r.active == d.active && r.point == d.point && r.lastMouse == d.lastMouse
            && r.channels == d.channels && r.history.delivered == d.history.delivered && r.store == d.store
  {
  }

  /** A switch keeps the invariant, and finds its target whenever the grid has it. */
  lemma SwitchKeeps(d: Desk, p: ScreenPoint, warpOk: bool)
    requires StoreOk(d.store) && ActiveLive(d) && ModeTold(d) && WarpsAccounted(d)
    ensures var r := SwitchActive(d, p, warpOk);
            && DeskOk(r) && AtMostOneDelivery(d, r) && r.store == d.store
            && (p.key in d.store.grid.screens ==> Find(d.store.nodes, p.key).Some?)
            && (Find(d.store.nodes, p.key).Some? ==> r.active == Find(d.store.nodes, p.key) && r.point == Some(p))
  {
    hide Enqueue, WarpToActivePoint;
    if p.key in d.store.grid.screens {
      FindGridScreen(d.store, p.key);
    }
    match Find(d.store.nodes, p.key)
    case None =>
    case Some(n) =>
      var moved := TellMode(d.(active := Some(n), point := Some(p)));
      if n.screen.local {
        WarpKeeps(moved, warpOk);
      } else {
        EnqueueDelivers(moved.(pendingWarp := None), n, MoveEvent(MouseMove(p.x, p.y, p.key.screenIndex, 0, 0)));
      }
  }

  /** Switching to a pixel inside the screen found leaves the cursor there and sends exactly that. */
  lemma SwitchInside(d: Desk, n: Node, p: ScreenPoint, warpOk: bool)
    requires Find(d.store.nodes, p.key) == Some(n) && Inside(p.x, p.y, n.screen.info) && d.lastMouse.Some?
    ensures var r := SwitchActive(d, p, warpOk);
            CursorOk(r) && NewDeliveriesFit(d, r) && r.active == Some(n) && r.point == Some(p)
  {
  }

  /** In a synced store, entering through an edge puts the cursor inside the screen that is found. */
  lemma SwitchLandsInside(d: Desk, from: ScreenPoint, e: Edge, warpOk: bool)
    requires Synced(d.store) && d.lastMouse.Some?
    requires T.MapEntryPoint(d.store.grid, from, e).Entry?
    ensures var p := T.MapEntryPoint(d.store.grid, from, e).point;
            var r := SwitchActive(d, p, warpOk);
            && CursorOk(r) && NewDeliveriesFit(d, r)
            && r.active.Some? && r.active == Find(d.store.nodes, p.key) && r.point == Some(p)
            && p.key in d.store.grid.screens && Matches(r.active.value.screen, d.store.grid.screens[p.key])
  {
    var p := T.MapEntryPoint(d.store.grid, from, e).point;
    T.EntryLandsInside(d.store.grid, from, e);
    FindGridScreen(d.store, p.key);
    SwitchInside(d, Find(d.store.nodes, p.key).value, p, warpOk);
  }

  lemma CrossingKeeps(d: Desk, from: ScreenPoint, e: Edge, warpOk: bool)
    requires DeskOk(d) && d.lastMouse.Some? && T.MapEntryPoint(d.store.grid, from, e).Entry?
    ensures Kept(d, SwitchActive(d, T.MapEntryPoint(d.store.grid, from, e).point, warpOk))
  {
    T.EntryLandsInside(d.store.grid, from, e);
    SwitchKeeps(d, T.MapEntryPoint(d.store.grid, from, e).point, warpOk);
    if Synced(d.store) {
      SwitchLandsInside(d, from, e, warpOk);
    }
  }

  lemma LocalMoveKeeps(d: Desk, m: MouseMove, warpOk: bool)
    requires DeskOk(d) && d.active.Some? && !RemoteActive(d)
    ensures Kept(d, LocalMove(d, m, warpOk))
  {
    var point := LocalPoint(d.active.value, m);
    var seen := d.(lastMouse := Some(m), point := Some(point));
    if d.pendingWarp != Some(point) {
      var hit := T.HitEdge(d.store.grid, point);
      if hit.Some? && T.MapEntryPoint(d.store.grid, point, hit.value).Entry? {
        CrossingKeeps(seen, point, hit.value, warpOk);
        KeptFromSeen(d, point, m, LocalMove(d, m, warpOk));
      }
    }
  }

  lemma StayRemoteKeeps(d: Desk, x: int, y: int)
    requires DeskOk(d) && RemoteActive(d) && d.point.Some? && d.lastMouse.Some?
    requires d.point.value.key == d.active.value.screen.key
    ensures var r := StayRemote(d, d.active.value, x, y);
            && DeskOk(r) && AtMostOneDelivery(d, r) && r.store == d.store
            && CursorOk(r) && NewDeliveriesFit(d, r) && r.active == d.active && r.lastMouse == d.lastMouse
            && r.point.Some? && r.point.value.key == d.point.value.key
            && (Inside(x, y, d.active.value.screen.info) ==>
                  r.point.value.x == x && r.point.value.y == y)
  {
    var info := d.active.value.screen.info;
    var p := d.point.value.(x := Clamp(x, 0, Max(0, info.width - 1)), y := Clamp(y, 0, Max(0, info.height - 1)));
    var moved := d.(point := Some(p));
    assert ValidRect(info);
    EnqueueDelivers(moved, d.active.value, MoveEvent(MouseMove(p.x, p.y, p.key.screenIndex, 0, 0)));
  }

  lemma MoveCursorKeeps(d: Desk, next: ScreenPoint, warpOk: bool)
    requires DeskOk(d) && RemoteActive(d) && d.point.Some? && d.lastMouse.Some?
    requires d.point.value.key == d.active.value.screen.key
    ensures Kept(d, MoveCursorTo(d, next, warpOk))
  {
    var hit := T.HitEdge(d.store.grid, next);
    if hit.Some? && T.MapEntryPoint(d.store.grid, next, hit.value).Entry? {
      CrossingKeeps(d, next, hit.value, warpOk);
    } else {
      StayRemoteKeeps(d, next.x, next.y);
    }
  }

  lemma SeenKeeps(d: Desk, point: ScreenPoint, m: MouseMove)
    requires DeskOk(d) && RemoteActive(d) && point.key == d.active.value.screen.key
    ensures var seen := d.(point := Some(point), lastMouse := Some(m));
            DeskOk(seen) && AtMostOneDelivery(d, seen)
            && (Inside(point.x, point.y, d.active.value.screen.info) ==> Kept(d, seen))
  {
  }

  lemma SeenMoveKeeps(d: Desk, m: MouseMove, cursor: ScreenPoint, next: ScreenPoint, warpOk: bool)
    requires DeskOk(d) && RemoteActive(d) && cursor.key == d.active.value.screen.key
    ensures Kept(d, MoveCursorTo(d.(point := Some(cursor), lastMouse := Some(m)), next, warpOk))
  {
    var seen := d.(point := Some(cursor), lastMouse := Some(m));
    SeenKeeps(d, cursor, m);
    MoveCursorKeeps(seen, next, warpOk);
    KeptFromSeen(d, cursor, m, MoveCursorTo(seen, next, warpOk));
  }

  lemma RemoteMoveKeeps(d: Desk, m: MouseMove, warpOk: bool)
    requires DeskOk(d) && RemoteActive(d)
    ensures CursorOk(d) ==> Kept(d, RemoteMove(d, m, warpOk))
    ensures var r := RemoteMove(d, m, warpOk);
            DeskOk(r) && AtMostOneDelivery(d, r) && r.store == d.store && r.active.Some?
  {
    hide MoveCursorTo;
    var cursor := CursorOn(d.active.value, d.point);
    var (dx, dy) := Motion(d.lastMouse, m);
    if dx == 0 && dy == 0 {
      SeenKeeps(d, cursor, m);
    } else {
      SeenMoveKeeps(d, m, cursor, ScreenPoint(cursor.key, cursor.x + dx, cursor.y + dy), warpOk);
    }
  }

  /** What a delivery for the event carries: the cursor's new position for motion, else the event put at the cursor. */
  ghost predicate CarriesCursor(event: InputEvent, before: ScreenPoint, after: ScreenPoint, sent: InputEvent) {
    match event
    case MoveEvent(_) => sent == MoveEvent(MouseMove(after.x, after.y, after.key.screenIndex, 0, 0))
    case ButtonEvent(_, _, _, button, release) =>
      sent == ButtonEvent(before.x, before.y, before.key.screenIndex, button, release)
    case WheelEvent(_, _, dx, dy) => sent == WheelEvent(before.x, before.y, dx, dy)
    case KeyEvent(_, _, _, _, _) => sent == event
  }

  /** The active screen is a client's whose queue has a live writer and fewer than ten events waiting. */
  ghost predicate CanDeliver(d: Desk, channels: map<Endpoint, Channel>) {
    && RemoteActive(d) && d.active.value.screen.endpoint in channels
    && channels[d.active.value.screen.endpoint].open && |channels[d.active.value.screen.endpoint].queue| < 10
  }

  lemma SwitchDelivers(d: Desk, p: ScreenPoint, warpOk: bool)
    requires Find(d.store.nodes, p.key).Some?
    ensures var r := SwitchActive(d, p, warpOk);
            r.history.delivered == d.history.delivered +
              (if CanDeliver(r, d.channels) then
                 [Delivery(r.active.value, MoveEvent(MouseMove(p.x, p.y, p.key.screenIndex, 0, 0)))] else [])
            && r.point == Some(p)
  {
  }

  lemma CursorMoveDelivers(d: Desk, next: ScreenPoint, warpOk: bool)
    requires DeskOk(d) && RemoteActive(d) && d.point.Some?
    ensures var r := MoveCursorTo(d, next, warpOk);
            && r.point.Some?
            && r.history.delivered == d.history.delivered +
                 (if CanDeliver(r, d.channels) then
                    [Delivery(r.active.value,
                              MoveEvent(MouseMove(r.point.value.x, r.point.value.y, r.point.value.key.screenIndex, 0, 0)))]
                  else [])
  {
    hide SwitchActive, Find;
    var hit := T.HitEdge(d.store.grid, next);
    if hit.Some? && T.MapEntryPoint(d.store.grid, next, hit.value).Entry? {
      T.EntryLandsInside(d.store.grid, next, hit.value);
      FindGridScreen(d.store, T.MapEntryPoint(d.store.grid, next, hit.value).point.key);
      SwitchDelivers(d, T.MapEntryPoint(d.store.grid, next, hit.value).point, warpOk);
    }
  }

  lemma LocalMoveDelivers(d: Desk, m: MouseMove, warpOk: bool)
    requires DeskOk(d) && d.active.Some? && !RemoteActive(d)
    ensures var r := LocalMove(d, m, warpOk);
            && r.point.Some?
            && r.history.delivered == d.history.delivered +
                 (if CanDeliver(r, d.channels) then
                    [Delivery(r.active.value,
                              MoveEvent(MouseMove(r.point.value.x, r.point.value.y, r.point.value.key.screenIndex, 0, 0)))]
                  else [])
  {
    hide SwitchActive, Find;
    var point := LocalPoint(d.active.value, m);
    var seen := d.(lastMouse := Some(m), point := Some(point));
    var hit := T.HitEdge(d.store.grid, point);
    if hit.Some? && T.MapEntryPoint(d.store.grid, point, hit.value).Entry? {
      T.EntryLandsInside(d.store.grid, point, hit.value);
      FindGridScreen(d.store, T.MapEntryPoint(d.store.grid, point, hit.value).point.key);
      SwitchDelivers(seen, T.MapEntryPoint(d.store.grid, point, hit.value).point, warpOk);
    }
  }

  /**
   * An event is queued exactly when the screen active afterwards is remote, its queue
   * takes it, and it is not a sample without motion; and then it tells the client
   * where the virtual cursor is.
   */
  lemma DeliversExactlyWhen(d: Desk, event: InputEvent, warpOk: bool)
    requires DeskOk(d) && CursorOk(d)
    ensures var r := Handle(d, event, warpOk);
            var still := RemoteActive(d) && event.MoveEvent? && Motion(d.lastMouse, event.move) == (0, 0);
            if CanDeliver(r, d.channels) && !still then
              && r.point.Some? && |r.history.delivered| == |d.history.delivered| + 1
              && var sent := r.history.delivered[|d.history.delivered|];
              && r.history.delivered == d.history.delivered + [sent]
              && sent.target == r.active.value
              && CarriesCursor(event, if d.point.Some? then d.point.value else r.point.value, r.point.value, sent.event)
            else r.history.delivered == d.history.delivered
  {
    hide MoveCursorTo, LocalMove, Motion, FirstLocal;
    if !IsHotkey(event) && event.MoveEvent? {
      if RemoteActive(d) {
        var c := d.point.value;
        var (dx, dy) := Motion(d.lastMouse, event.move);
        SeenKeeps(d, c, event.move);
        CursorMoveDelivers(d.(point := Some(c), lastMouse := Some(event.move)),
                           c.(x := c.x + dx, y := c.y + dy), warpOk);
      } else if d.active.Some? {
        LocalMoveDelivers(d, event.move, warpOk);
      }
    }
  }

  /**
   * Every captured event keeps the invariant, queues at most one message, for the
   * screen active afterwards, and never takes the active screen away while there is a
   * local one. In a synced store it also keeps the virtual cursor on the active remote
   * screen and queues only what fits the receiving screen.
   */
  lemma HandleKeeps(d: Desk, event: InputEvent, warpOk: bool)
    requires DeskOk(d)
    ensures var r := Handle(d, event, warpOk);
            && DeskOk(r) && AtMostOneDelivery(d, r) && r.store == d.store
            && (d.active.Some? && (exists n :: n in d.store.nodes && n.screen.local) ==> r.active.Some?)
            && (Synced(d.store) && CursorOk(d) ==> CursorOk(r) && NewDeliveriesFit(d, r))
  {
    if IsHotkey(event) {
      if RemoteActive(d) {
        ActivateFirstLocalKeeps(d);
      }
    } else if RemoteActive(d) {
      if event.MoveEvent? {
        RemoteMoveKeeps(d, event.move, warpOk);
      } else {
        EnqueueDelivers(d, d.active.value, AtActivePoint(d, event));
      }
    } else if event.MoveEvent? && d.active.Some? {
      LocalMoveKeeps(d, event.move, warpOk);
    }
  }
}
