/**
 * The input router: which screen has the pointer, where the virtual cursor is, what
 * each captured event queues, and what the capture backend is told.
 */
module Input {
  import opened Core
  import opened Screens
  import T = Topology

  // ----- What the router works on -----

  const CAPACITY := 10

  /** A session's send queue. It closes when the writer that drains it is gone. */
  datatype Channel = Channel(queue: seq<InputEvent>, open: bool)

  predicate Accepts(c: Channel) {
    c.open && |c.queue| < CAPACITY
  }

  datatype WarpCommand = WarpCommand(screenIndex: nat, x: int, y: int, accepted: bool)

  /** What the attached capture backend has been told so far. */
  datatype Capture = Capture(modes: seq<bool>, warps: seq<WarpCommand>)

  /** An event a send queue has accepted, with the screen it was meant for. */
  datatype Delivery = Delivery(target: Node, event: InputEvent)

  /** What happened so far; the router itself never reads it. */
  datatype History = History(delivered: seq<Delivery>, warps: nat, suppressed: nat)

  datatype Desk = Desk(
    store: Store,
    channels: map<Endpoint, Channel>,
    capture: Option<Capture>,
    active: Option<Node>,
    point: Option<ScreenPoint>,
    lastMouse: Option<MouseMove>,
    pendingWarp: Option<ScreenPoint>,
    history: History)

  function EmptyDesk(store: Store): Desk {
    Desk(store, map[], None, None, None, None, None, History([], 0, 0))
  }

  predicate RemoteActive(d: Desk) {
    d.active.Some? && !d.active.value.screen.local
  }

  // ----- What each operation does to it -----

  function TellMode(d: Desk): Desk {
    match d.capture
    case None => d
    case Some(c) => d.(capture := Some(c.(modes := c.modes + [RemoteActive(d)])))
  }

  function SetCapture(d: Desk, attach: bool): Desk {
    TellMode(d.(capture := if attach then Some(Capture([], [])) else None))
  }

  function ClearActive(d: Desk): Desk {
    TellMode(d.(active := None, point := None, lastMouse := None, pendingWarp := None))
  }

  function ActivateFirstLocal(d: Desk): Desk {
    match FirstLocal(d.store.nodes)
    case None => ClearActive(d)
    case Some(n) =>
      TellMode(d.(active := Some(n), point := Some(ScreenPoint(n.screen.key, 0, 0)),
                  lastMouse := None, pendingWarp := None))
  }

  function Enqueue(d: Desk, target: Node, event: InputEvent): Desk {
    var e := target.screen.endpoint;
    if target.screen.local || e !in d.channels || !Accepts(d.channels[e]) then d
    else
      var c := d.channels[e];
      d.(channels := d.channels[e := c.(queue := c.queue + [event])],
         history := d.history.(delivered := d.history.delivered + [Delivery(target, event)]))
  }

  /** Asks the backend to put the OS cursor at the active point; if it does, its echo is awaited. */
  function WarpToActivePoint(d: Desk, warpOk: bool): Desk {
    if d.capture.None? || d.active.None? || !d.active.value.screen.local || d.point.None? then d
    else
      var p := d.point.value;
      var c := d.capture.value;
      var told := d.(capture := Some(c.(warps := c.warps + [WarpCommand(p.key.screenIndex, p.x, p.y, warpOk)])));
      if warpOk then told.(pendingWarp := Some(p), history := d.history.(warps := d.history.warps + 1)) else told
  }

  function SwitchActive(d: Desk, point: ScreenPoint, warpOk: bool): Desk {
    match Find(d.store.nodes, point.key)
    case None => d
    case Some(n) =>
      var moved := TellMode(d.(active := Some(n), point := Some(point)));
      if n.screen.local then WarpToActivePoint(moved, warpOk)
      else Enqueue(moved.(pendingWarp := None), n, MoveEvent(MouseMove(point.x, point.y, point.key.screenIndex, 0, 0)))
  }

  function EnsureActiveLocal(d: Desk, preferLocalPrimary: bool, warpOk: bool): Desk {
    if d.active.None? then ActivateFirstLocal(d)
    else if preferLocalPrimary && FirstLocal(d.store.nodes).Some? then
      SwitchActive(d, ScreenPoint(FirstLocal(d.store.nodes).value.screen.key, 0, 0), warpOk)
    else d
  }

  /** The pixel a local sample names; its screen comes from the event, its owner from the active screen. */
  function LocalPoint(active: Node, m: MouseMove): ScreenPoint {
    ScreenPoint(ScreenKey(active.screen.key.ownerId, m.screenIndex), m.x, m.y)
  }

  function LocalMove(d: Desk, m: MouseMove, warpOk: bool): Desk
    requires d.active.Some?
  {
    var point := LocalPoint(d.active.value, m);
    var seen := d.(lastMouse := Some(m), point := Some(point));
    if d.pendingWarp == Some(point) then
      seen.(pendingWarp := None, history := d.history.(suppressed := d.history.suppressed + 1))
    else
      match T.HitEdge(d.store.grid, point)
      case None => seen
      case Some(edge) =>
        match T.MapEntryPoint(d.store.grid, point, edge)
        case NoEntry(_) => seen
        case Entry(target) => SwitchActive(seen, target, warpOk)
  }

  /** Raw motion if the backend reports any, else the change since the last absolute sample. */
  function Motion(lastMouse: Option<MouseMove>, m: MouseMove): (int, int) {
    if m.deltaX == 0 && m.deltaY == 0 && lastMouse.Some? then (m.x - lastMouse.value.x, m.y - lastMouse.value.y)
    else (m.deltaX, m.deltaY)
  }

  /** The virtual cursor, put at the origin should it not be on the active screen. */
  function CursorOn(active: Node, point: Option<ScreenPoint>): ScreenPoint {
    if point.Some? && point.value.key == active.screen.key then point.value
    else ScreenPoint(active.screen.key, 0, 0)
  }

  function StayRemote(d: Desk, target: Node, x: int, y: int): Desk
    requires d.point.Some?
  {
    var p := d.point.value.(x := Clamp(x, 0, Max(0, target.screen.info.width - 1)),
                            y := Clamp(y, 0, Max(0, target.screen.info.height - 1)));
    Enqueue(d.(point := Some(p)), target, MoveEvent(MouseMove(p.x, p.y, p.key.screenIndex, 0, 0)))
  }

  /** The cursor is to go to a pixel that may lie beyond the screen: cross if a neighbour takes it, else stay. */
  function MoveCursorTo(d: Desk, next: ScreenPoint, warpOk: bool): Desk
    requires d.active.Some? && d.point.Some?
  {
    match T.HitEdge(d.store.grid, next)
    case None => StayRemote(d, d.active.value, next.x, next.y)
    case Some(edge) =>
      match T.MapEntryPoint(d.store.grid, next, edge)
      case NoEntry(_) => StayRemote(d, d.active.value, next.x, next.y)
      case Entry(target) => SwitchActive(d, target, warpOk)
  }

  function RemoteMove(d: Desk, m: MouseMove, warpOk: bool): Desk
    requires d.active.Some?
  {
    var cursor := CursorOn(d.active.value, d.point);
    var (dx, dy) := Motion(d.lastMouse, m);
    var seen := d.(point := Some(cursor), lastMouse := Some(m));
    if dx == 0 && dy == 0 then seen
    else MoveCursorTo(seen, cursor.(x := cursor.x + dx, y := cursor.y + dy), warpOk)
  }

  function AtActivePoint(d: Desk, event: InputEvent): InputEvent {
    if d.active.None? || d.point.None? || d.point.value.key != d.active.value.screen.key then event
    else
      var p := d.point.value;
      match event
      case ButtonEvent(_, _, _, button, release) => ButtonEvent(p.x, p.y, p.key.screenIndex, button, release)
      case WheelEvent(_, _, dx, dy) => WheelEvent(p.x, p.y, dx, dy)
      case MoveEvent(_) => event
      case KeyEvent(_, _, _, _, _) => event
  }

  predicate IsHotkey(event: InputEvent) {
    event.KeyEvent? && !event.release && event.key == F12
  }

  /** One captured event. The flag says whether the backend would carry out a cursor move now. */
  function Handle(d: Desk, event: InputEvent, warpOk: bool): Desk {
    if IsHotkey(event) then
      if RemoteActive(d) then ActivateFirstLocal(d) else d
    else if RemoteActive(d) then
      if event.MoveEvent? then RemoteMove(d, event.move, warpOk)
      else Enqueue(d, d.active.value, AtActivePoint(d, event))
    else if event.MoveEvent? && d.active.Some? then LocalMove(d, event.move, warpOk)
    else d
  }

  // ----- The objects -----

  class InputCapture {
    var modes: seq<bool>
    var warps: seq<WarpCommand>

    constructor ()
      ensures modes == [] && warps == []
    {
      modes, warps := [], [];
    }

    method SetRemoteControlActive(active: bool)
      modifies this
      ensures modes == old(modes) + [active] && warps == old(warps)
    {
      modes := modes + [active];
    }

    method MoveLocalCursor(screenIndex: nat, x: int, y: int, succeeds: bool) returns (ok: bool)
      modifies this
      ensures ok == succeeds && modes == old(modes)
      ensures warps == old(warps) + [WarpCommand(screenIndex, x, y, succeeds)]
    {
      warps := warps + [WarpCommand(screenIndex, x, y, succeeds)];
      return succeeds;
    }
  }

  class ClientSenders {
    var channels: map<Endpoint, Channel>

    constructor ()
      ensures channels == map[]
    {
      channels := map[];
    }

    method TrySend(endpoint: Endpoint, event: InputEvent) returns (ok: bool)
      requires endpoint in channels
      modifies this
      ensures ok <==> Accepts(old(channels)[endpoint])
      ensures channels == if !ok then old(channels) else
                old(channels)[endpoint := old(channels)[endpoint].(queue := old(channels)[endpoint].queue + [event])]
    {
      var channel := channels[endpoint];
      ok := Accepts(channel);
      if ok {
        channels := channels[endpoint := channel.(queue := channel.queue + [event])];
      }
    }
  }

  class ServerInputRouter {
    const mScreens: ServerScreenStore
    const mSenders: ClientSenders
    var mCapture: InputCapture?
    var mActiveScreen: Option<Node>
    var mActivePoint: Option<ScreenPoint>
    var mLastLocalMouse: Option<MouseMove>
    var mPendingLocalWarp: Option<ScreenPoint>
    ghost var history: History

    ghost function Model(): Desk
      reads this, mScreens, mScreens.mTopology, mSenders, mCapture
    {
      Desk(mScreens.Model(), mSenders.channels,
           if mCapture == null then None else Some(Capture(mCapture.modes, mCapture.warps)),
           mActiveScreen, mActivePoint, mLastLocalMouse, mPendingLocalWarp, history)
    }

    /** The active pointer, if any, points at a live node. */
    ghost predicate Valid()
      reads this, mScreens, mScreens.mTopology
    {
      mScreens.Valid() && (mActiveScreen.Some? ==> mActiveScreen.value in mScreens.mScreens)
    }

    constructor (screens: ServerScreenStore, senders: ClientSenders)
      requires screens.Valid() && senders.channels == map[]
      ensures Valid() && mScreens == screens && mSenders == senders && mCapture == null
      ensures Model() == EmptyDesk(screens.Model())
    {
      mScreens := screens;
      mSenders := senders;
      mCapture := null;
      mActiveScreen, mActivePoint, mLastLocalMouse, mPendingLocalWarp := None, None, None, None;
      history := History([], 0, 0);
    }

    method UpdateCaptureRemoteControl()
      requires Valid()
      modifies mCapture
      ensures Valid() && Model() == TellMode(old(Model()))
    {
      if mCapture == null {
        return;
      }
      mCapture.SetRemoteControlActive(mActiveScreen.Some? && !mActiveScreen.value.screen.local);
    }

    /** Attaches a capture that has not been told anything yet, or detaches. */
    method AttachCapture(capture: InputCapture?)
      requires Valid() && (capture != null ==> capture.modes == [] && capture.warps == [])
      modifies this, capture
      ensures Valid() && mCapture == capture
      ensures Model() == SetCapture(old(Model()), capture != null)
    {
      mCapture := capture;
      UpdateCaptureRemoteControl();
    }

    method ClearActiveState()
      requires mScreens.Valid()
      modifies this, mCapture
      ensures Valid() && mCapture == old(mCapture)
      ensures Model() == ClearActive(old(Model()))
    {
      mActiveScreen, mActivePoint, mLastLocalMouse, mPendingLocalWarp := None, None, None, None;
      UpdateCaptureRemoteControl();
    }

    method ActivateFirstLocalScreen()
      requires mScreens.Valid()
      modifies this, mCapture
      ensures Valid() && mCapture == old(mCapture)
      ensures Model() == ActivateFirstLocal(old(Model()))
    {
      var screen := mScreens.FirstLocalScreen();
      if screen.None? {
        mActiveScreen, mActivePoint, mLastLocalMouse, mPendingLocalWarp := None, None, None, None;
        UpdateCaptureRemoteControl();
        return;
      }
      mActiveScreen := screen;
      mActivePoint := Some(ScreenPoint(mActiveScreen.value.screen.key, 0, 0));
      mLastLocalMouse := None;
      mPendingLocalWarp := None;
      UpdateCaptureRemoteControl();
    }

    method QueueInputForScreen(screen: Node, event: InputEvent) returns (queued: bool)
      requires Valid()
      modifies `history, mSenders
      ensures Valid() && Model() == Enqueue(old(Model()), screen, event)
      ensures queued <==> (&& !screen.screen.local && screen.screen.endpoint in old(mSenders.channels)
                           && Accepts(old(mSenders.channels)[screen.screen.endpoint]))
    {
      if screen.screen.local {
        return false;
      }
      if screen.screen.endpoint !in mSenders.channels {
        return false;
      }
      queued := mSenders.TrySend(screen.screen.endpoint, event);
      if queued {
        history := history.(delivered := history.delivered + [Delivery(screen, event)]);
      }
    }

    method MoveLocalCursorToActivePoint(warpOk: bool)
      requires Valid()
      modifies this, mCapture
      ensures Valid() && mCapture == old(mCapture)
      ensures Model() == WarpToActivePoint(old(Model()), warpOk)
    {
      if mCapture == null || mActiveScreen.None? || !mActiveScreen.value.screen.local || mActivePoint.None? {
        return;
      }
      var point := mActivePoint.value;
      var ok := mCapture.MoveLocalCursor(point.key.screenIndex, point.x, point.y, warpOk);
      if !ok {
        return;
      }
      mPendingLocalWarp := Some(point);
      history := history.(warps := history.warps + 1);
    }

    method SwitchActiveScreen(point: ScreenPoint, warpOk: bool)
      requires Valid()
      modifies this, mCapture, mSenders
      ensures Valid() && mCapture == old(mCapture)
      ensures Model() == SwitchActive(old(Model()), point, warpOk)
    {
      var screen := mScreens.FindScreen(point.key);
      if screen.None? {
        return;
      }
      mActiveScreen := screen;
      mActivePoint := Some(point);
      UpdateCaptureRemoteControl();
      if !screen.value.screen.local {
        mPendingLocalWarp := None;
        var entry := MouseMove(mActivePoint.value.x, mActivePoint.value.y, mActivePoint.value.key.screenIndex, 0, 0);
        var queued := QueueInputForScreen(screen.value, MoveEvent(entry));
      } else {
        MoveLocalCursorToActivePoint(warpOk);
      }
    }

    method EnsureActiveLocalScreen(preferLocalPrimary: bool, warpOk: bool)
      requires Valid()
      modifies this, mCapture, mSenders
      ensures Valid() && mCapture == old(mCapture)
      ensures Model() == EnsureActiveLocal(old(Model()), preferLocalPrimary, warpOk)
    {
      if mActiveScreen.None? {
        ActivateFirstLocalScreen();
        return;
      }
      if preferLocalPrimary {
        var local := mScreens.FirstLocalScreen();
        if local.Some? {
          SwitchActiveScreen(ScreenPoint(local.value.screen.key, 0, 0), warpOk);
        }
      }
    }

    method SuppressPendingLocalWarp(point: ScreenPoint) returns (suppressed: bool)
      requires Valid()
      modifies `mPendingLocalWarp, `history
      ensures Valid()
      ensures suppressed <==> old(mPendingLocalWarp) == Some(point)
      ensures mPendingLocalWarp == if suppressed then None else old(mPendingLocalWarp)
      ensures history == if suppressed then old(history).(suppressed := old(history).suppressed + 1) else old(history)
    {
      if mPendingLocalWarp.None? || mPendingLocalWarp.value != point {
        return false;
      }
      mPendingLocalWarp := None;
      history := history.(suppressed := history.suppressed + 1);
      return true;
    }

    method HandleMouseMove(event: MouseMove, warpOk: bool)
      requires Valid()
      modifies this, mCapture, mSenders
      ensures Valid() && mCapture == old(mCapture)
      ensures Model() == if RemoteActive(old(Model())) then RemoteMove(old(Model()), event, warpOk)
                         else if old(Model()).active.Some? then LocalMove(old(Model()), event, warpOk)
                         else old(Model())
    {
      hide RemoteMove;
      if mActiveScreen.None? {
        return;
      }
      if !mActiveScreen.value.screen.local {
        HandleRemoteMouseMove(event, warpOk);
        return;
      }
      var point := ScreenPoint(ScreenKey(mActiveScreen.value.screen.key.ownerId, event.screenIndex), event.x, event.y);
      mLastLocalMouse := Some(event);
      mActivePoint := Some(point);
      var suppressed := SuppressPendingLocalWarp(point);
      if suppressed {
        return;
      }
      var grid := mScreens.mTopology.Model();
      var edge := T.HitEdge(grid, point);
      if edge.None? {
        return;
      }
      var target := T.MapEntryPoint(grid, point, edge.value);
      if target.NoEntry? {
        return;
      }
      SwitchActiveScreen(target.point, warpOk);
    }

    /** Re-keys a cursor that is not on the active screen and takes the sample as the new baseline. */
    method ReadMotion(event: MouseMove) returns (deltaX: int, deltaY: int)
      requires Valid() && RemoteActive(Model())
      modifies `mActivePoint, `mLastLocalMouse
      ensures Valid() && (deltaX, deltaY) == Motion(old(mLastLocalMouse), event)
      ensures Model() == old(Model()).(point := Some(CursorOn(mActiveScreen.value, old(mActivePoint))),
                                       lastMouse := Some(event))
    {
      if mActivePoint.None? || mActivePoint.value.key != mActiveScreen.value.screen.key {
        mActivePoint := Some(ScreenPoint(mActiveScreen.value.screen.key, 0, 0));
      }
      deltaX, deltaY := event.deltaX, event.deltaY;
      if deltaX == 0 && deltaY == 0 && mLastLocalMouse.Some? {
        deltaX := event.x - mLastLocalMouse.value.x;
        deltaY := event.y - mLastLocalMouse.value.y;
      }
      mLastLocalMouse := Some(event);
    }

    method HandleRemoteMouseMove(event: MouseMove, warpOk: bool)
      requires Valid()
      modifies this, mCapture, mSenders
      ensures Valid() && mCapture == old(mCapture)
      ensures Model() == if RemoteActive(old(Model())) then RemoteMove(old(Model()), event, warpOk) else old(Model())
    {
      hide MoveCursorTo, Motion, CursorOn;
      if mActiveScreen.None? || mActiveScreen.value.screen.local {
        return;
      }
      var deltaX, deltaY := ReadMotion(event);
      if deltaX == 0 && deltaY == 0 {
        return;
      }
      var point := mActivePoint.value;
      MoveVirtualCursor(point.(x := point.x + deltaX, y := point.y + deltaY), warpOk);
    }

    /** Crossing is tried before clamping, so an overshoot can still reach the neighbour. */
    method MoveVirtualCursor(nextPoint: ScreenPoint, warpOk: bool)
      requires Valid() && RemoteActive(Model()) && mActivePoint.Some?
      modifies this, mCapture, mSenders
      ensures Valid() && mCapture == old(mCapture)
      ensures Model() == MoveCursorTo(old(Model()), nextPoint, warpOk)
    {
      var grid := mScreens.mTopology.Model();
      var edge := T.HitEdge(grid, nextPoint);
      if edge.Some? {
        var target := T.MapEntryPoint(grid, nextPoint, edge.value);
        if target.Entry? {
          SwitchActiveScreen(target.point, warpOk);
          return;
        }
      }
      ClampAndQueue(nextPoint);
    }

    /** No neighbour took the pointer: keep the cursor on the screen and send where it is. */
    method ClampAndQueue(nextPoint: ScreenPoint)
      requires Valid() && RemoteActive(Model()) && mActivePoint.Some?
      modifies `mActivePoint, `history, mSenders
      ensures Valid()
      ensures Model() == StayRemote(old(Model()), old(mActiveScreen).value, nextPoint.x, nextPoint.y)
    {
      var active := mActiveScreen.value;
      var maxX := Max(0, active.screen.info.width - 1);
      var maxY := Max(0, active.screen.info.height - 1);
      mActivePoint := Some(mActivePoint.value.(x := Clamp(nextPoint.x, 0, maxX), y := Clamp(nextPoint.y, 0, maxY)));
      var routed := MouseMove(mActivePoint.value.x, mActivePoint.value.y, mActivePoint.value.key.screenIndex, 0, 0);
      var queued := QueueInputForScreen(active, MoveEvent(routed));
    }

    method EventAtActivePoint(event: InputEvent) returns (routed: InputEvent)
      requires Valid()
      ensures routed == AtActivePoint(Model(), event)
    {
      routed := event;
      if mActiveScreen.None? || mActivePoint.None? || mActivePoint.value.key != mActiveScreen.value.screen.key {
        return;
      }
      var p := mActivePoint.value;
      match event {
        case ButtonEvent(_, _, _, button, release) =>
          routed := ButtonEvent(p.x, p.y, p.key.screenIndex, button, release);
        case WheelEvent(_, _, deltaX, deltaY) =>
          routed := WheelEvent(p.x, p.y, deltaX, deltaY);
        case MoveEvent(_) =>
        case KeyEvent(_, _, _, _, _) =>
      }
    }

    method TryHandleLocalHotkey(event: InputEvent) returns (consumed: bool)
      requires Valid()
      modifies this, mCapture
      ensures Valid() && mCapture == old(mCapture)
      ensures consumed <==> IsHotkey(event)
      ensures Model() == if consumed && RemoteActive(old(Model())) then ActivateFirstLocal(old(Model()))
                         else old(Model())
    {
      if !event.KeyEvent? || event.release || event.key != F12 {
        return false;
      }
      if mActiveScreen.Some? && !mActiveScreen.value.screen.local {
        ActivateFirstLocalScreen();
      }
      return true;
    }

    method HandleInputEvent(event: InputEvent, warpOk: bool)
      requires Valid()
      modifies this, mCapture, mSenders
      ensures Valid() && mCapture == old(mCapture)
      ensures Model() == Handle(old(Model()), event, warpOk)
    {
      var consumed := TryHandleLocalHotkey(event);
      if consumed {
        return;
      }
      if mActiveScreen.Some? && !mActiveScreen.value.screen.local {
        if event.MoveEvent? {
          HandleRemoteMouseMove(event.move, warpOk);
        } else {
          var routed := EventAtActivePoint(event);
          var queued := QueueInputForScreen(mActiveScreen.value, routed);
        }
        return;
      }
      if event.KeyEvent? {
        return;
      }
      if event.MoveEvent? {
        HandleMouseMove(event.move, warpOk);
      }
    }
  }
}
