/** What sequences of pointer events amount to: travel on a remote screen, coming home, and the echo of a warp. */
module Gestures {
  import opened Core
  import opened EntryMap
  import opened Screens
  import opened StoreLaws
  import opened Input
  import opened InputLaws
  import opened PointerLaws
  import T = Topology

  /** A motion sample, and whether the backend would carry out a cursor move at that time. */
  datatype Sample = Sample(move: MouseMove, warpOk: bool)

  function Follow(d: Desk, samples: seq<Sample>): Desk {
    if samples == [] then d
    else
      var last := samples[|samples| - 1];
      Handle(Follow(d, samples[..|samples| - 1]), MoveEvent(last.move), last.warpOk)
  }

  /** The same screen stays active throughout. */
  ghost predicate Stays(d: Desk, samples: seq<Sample>) {
    forall i :: 0 <= i <= |samples| ==> Follow(d, samples[..i]).active == d.active
  }

  // ----- One step on a remote screen -----

  /** A screen is never its own neighbour, so an event that leaves the active screen in place did not cross. */
  lemma NotItsOwnNeighbor(g: T.Grid, p: ScreenPoint, e: Edge)
    requires T.Inverse(g) && T.MapEntryPoint(g, p, e).Entry?
    ensures T.MapEntryPoint(g, p, e).point.key != p.key
  {
    T.NeighborIsTheAdjacentScreen(g, p.key, e, p.key);
  }

  lemma MoveThatStays(d: Desk, next: ScreenPoint, warpOk: bool)
    requires DeskOk(d) && RemoteActive(d) && CursorOk(d) && next.key == d.active.value.screen.key
    requires MoveCursorTo(d, next, warpOk).active == d.active
    ensures MoveCursorTo(d, next, warpOk) == StayRemote(d, d.active.value, next.x, next.y)
  {
    hide StayRemote;
    var hit := T.HitEdge(d.store.grid, next);
    if hit.Some? && T.MapEntryPoint(d.store.grid, next, hit.value).Entry? {
      var target := T.MapEntryPoint(d.store.grid, next, hit.value).point;
      NotItsOwnNeighbor(d.store.grid, next, hit.value);
      T.EntryLandsInside(d.store.grid, next, hit.value);
      SwitchKeeps(d, target, warpOk);
      assert false;
    }
  }

  /** The pixel nearest to (x, y) on the screen. */
  function Nearest(p: ScreenPoint, x: int, y: int, info: ScreenInfo): ScreenPoint
    requires ValidRect(info)
  {
    p.(x := Clamp(x, 0, info.width - 1), y := Clamp(y, 0, info.height - 1))
  }

  /**
   * While the same remote screen stays active, a sample moves the virtual cursor by its
   * motion, stopping at the borders, and becomes the new baseline.
   */
  lemma RemoteStep(d: Desk, m: MouseMove, warpOk: bool)
    requires DeskOk(d) && RemoteActive(d) && CursorOk(d)
    requires Handle(d, MoveEvent(m), warpOk).active == d.active
    ensures var r := Handle(d, MoveEvent(m), warpOk);
            var (dx, dy) := Motion(d.lastMouse, m);
            var p := d.point.value;
            && DeskOk(r) && CursorOk(r) && r.store == d.store && r.lastMouse == Some(m)
            && ValidRect(d.active.value.screen.info)
            && r.point == Some(Nearest(p, p.x + dx, p.y + dy, d.active.value.screen.info))
  {
    hide MoveCursorTo, Motion;
    var p := d.point.value;
    var (dx, dy) := Motion(d.lastMouse, m);
    var seen := d.(lastMouse := Some(m));
    assert d.(point := Some(p), lastMouse := Some(m)) == seen;
    if dx != 0 || dy != 0 {
      var next := p.(x := p.x + dx, y := p.y + dy);
      MoveThatStays(seen, next, warpOk);
      StayRemoteKeeps(seen, next.x, next.y);
    }
  }

  // ----- Travel -----

  predicate AbsoluteOnly(samples: seq<Sample>) {
    forall i :: 0 <= i < |samples| ==> samples[i].move.deltaX == 0 && samples[i].move.deltaY == 0
  }

  /** Where the cursor should be when the mouse has gone from sample `from` to sample `to`. */
  function Travelled(p: ScreenPoint, from: MouseMove, to: MouseMove): ScreenPoint {
    p.(x := p.x + to.x - from.x, y := p.y + to.y - from.y)
  }

  ghost predicate TravelInside(p: ScreenPoint, from: MouseMove, samples: seq<Sample>, info: ScreenInfo) {
    forall i :: 0 <= i < |samples| ==>
      var q := Travelled(p, from, samples[i].move); Inside(q.x, q.y, info)
  }

  /**
   * Per-event deltas telescope: for absolute samples, while one remote screen stays
   * active and the travel stays inside it, the cursor has moved by exactly the last
   * sample minus the baseline it started from.
   */
  lemma {:induction false} TravelTelescopes(d: Desk, samples: seq<Sample>)
    requires DeskOk(d) && RemoteActive(d) && CursorOk(d) && AbsoluteOnly(samples) && Stays(d, samples)
    requires TravelInside(d.point.value, d.lastMouse.value, samples, d.active.value.screen.info)
    ensures var r := Follow(d, samples);
            var last := if samples == [] then d.lastMouse.value else samples[|samples| - 1].move;
            && DeskOk(r) && CursorOk(r) && r.active == d.active
            && r.lastMouse == Some(last)
            && r.point == Some(Travelled(d.point.value, d.lastMouse.value, last))
    decreases |samples|
  {
    hide DeskOk, Handle;
    if samples != [] {
      var front, last := samples[..|samples| - 1], samples[|samples| - 1];
      StaysFront(d, samples);
      TravelTelescopes(d, front);
      RemoteStep(Follow(d, front), last.move, last.warpOk);
    }
  }

  predicate RawOnly(samples: seq<Sample>) {
    forall i :: 0 <= i < |samples| ==> samples[i].move.deltaX != 0 || samples[i].move.deltaY != 0
  }

  /** The point moved by all raw deltas. */
  function Pushed(p: ScreenPoint, samples: seq<Sample>): ScreenPoint {
    if samples == [] then p
    else
      var q, m := Pushed(p, samples[..|samples| - 1]), samples[|samples| - 1].move;
      q.(x := q.x + m.deltaX, y := q.y + m.deltaY)
  }

  ghost predicate PushesInside(p: ScreenPoint, samples: seq<Sample>, info: ScreenInfo) {
    forall i :: 0 <= i <= |samples| ==> var q := Pushed(p, samples[..i]); Inside(q.x, q.y, info)
  }

  /**
   * Raw deltas add up whatever absolute position comes with them, so the cursor goes on
   * moving after the absolute samples have stopped at the physical edge.
   */
  lemma {:induction false} RawDeltasAddUp(d: Desk, samples: seq<Sample>)
    requires DeskOk(d) && RemoteActive(d) && CursorOk(d) && RawOnly(samples) && Stays(d, samples)
    requires PushesInside(d.point.value, samples, d.active.value.screen.info)
    ensures var r := Follow(d, samples);
            && DeskOk(r) && CursorOk(r) && r.active == d.active
            && r.point == Some(Pushed(d.point.value, samples))
    decreases |samples|
  {
    hide DeskOk, Handle;
    if samples != [] {
      var front, last := samples[..|samples| - 1], samples[|samples| - 1];
      StaysFront(d, samples);
      forall i | 0 <= i <= |front| ensures front[..i] == samples[..i] { }
      assert samples[..|samples|] == samples;
      RawDeltasAddUp(d, front);
      RemoteStep(Follow(d, front), last.move, last.warpOk);
    }
  }

  lemma StaysFront(d: Desk, samples: seq<Sample>)
    requires samples != [] && Stays(d, samples)
    ensures Stays(d, samples[..|samples| - 1])
    ensures Follow(d, samples[..|samples| - 1]).active == d.active && Follow(d, samples).active == d.active
  {
    hide Handle;
    var front := samples[..|samples| - 1];
    assert samples[..|samples|] == samples;
    forall i | 0 <= i <= |front| ensures Follow(d, front[..i]).active == d.active {
      assert front[..i] == samples[..i];
    }
  }

  /** Every motion sample the router acts on becomes the baseline. */
  lemma SampleIsBaseline(d: Desk, m: MouseMove, warpOk: bool)
    requires d.active.Some?
    ensures Handle(d, MoveEvent(m), warpOk).lastMouse == Some(m)
  {
    hide T.HitEdge, T.MapEntryPoint, Motion, CursorOn, Find, Clamp, Max, RemoteActive, Accepts;
  }

  /**
   * From the moment a sample crosses onto a remote screen, from the host or from another
   * remote screen, the cursor is the entry point plus (last sample - crossing sample).
   */
  lemma EntryPlusTravel(d: Desk, crossing: Sample, samples: seq<Sample>)
    requires DeskOk(d) && Synced(d.store) && CursorOk(d) && d.active.Some?
    requires var entered := Handle(d, MoveEvent(crossing.move), crossing.warpOk);
             && RemoteActive(entered) && AbsoluteOnly(samples) && Stays(entered, samples) && samples != []
             && entered.point.Some?
             && TravelInside(entered.point.value, crossing.move, samples, entered.active.value.screen.info)
    ensures var entered := Handle(d, MoveEvent(crossing.move), crossing.warpOk);
            Follow(entered, samples).point
            == Some(Travelled(entered.point.value, crossing.move, samples[|samples| - 1].move))
  {
    hide Handle, Stays, TravelInside, DeskOk, CursorOk;
    HandleKeeps(d, MoveEvent(crossing.move), crossing.warpOk);
    SampleIsBaseline(d, crossing.move, crossing.warpOk);
    var entered := Handle(d, MoveEvent(crossing.move), crossing.warpOk);
    TravelTelescopes(entered, samples);
  }

  // ----- Coming home -----

  /** Motion straight towards or away from edge e. */
  predicate StraightAt(e: Edge, dx: int, dy: int) {
    if e.Left? || e.Right? then dy == 0 else dx == 0
  }

  predicate Towards(e: Edge, dx: int, dy: int) {
    match e
    case Left => dx < 0 && dy == 0
    case Right => 0 < dx && dy == 0
    case Top => dx == 0 && dy < 0
    case Bottom => dx == 0 && 0 < dy
  }

  /** Every sample moves straight at edge e. */
  ghost predicate AllStraight(d: Desk, samples: seq<Sample>, e: Edge) {
    forall i :: 0 <= i < |samples| ==>
      var (dx, dy) := Motion(Follow(d, samples[..i]).lastMouse, samples[i].move); StraightAt(e, dx, dy)
  }

  lemma {:induction false} StraightKeepsLane(d: Desk, samples: seq<Sample>, e: Edge)
    requires DeskOk(d) && RemoteActive(d) && CursorOk(d) && Stays(d, samples) && AllStraight(d, samples, e)
    ensures var r := Follow(d, samples);
            && DeskOk(r) && CursorOk(r) && r.active == d.active && r.store == d.store
            && T.SameAlong(r.point.value.x, r.point.value.y, d.point.value.x, d.point.value.y, e)
    decreases |samples|
  {
    hide DeskOk, Handle, Motion;
    if samples != [] {
      var front, last := samples[..|samples| - 1], samples[|samples| - 1];
      StaysFront(d, samples);
      forall i | 0 <= i < |front|
        ensures var (dx, dy) := Motion(Follow(d, front[..i]).lastMouse, front[i].move); StraightAt(e, dx, dy)
      {
        assert front[..i] == samples[..i];
      }
      StraightKeepsLane(d, front, e);
      RemoteStep(Follow(d, front), last.move, last.warpOk);
    }
  }

  /** The local sample that leaves through an edge: where it is, and where it enters. */
  ghost predicate Leaves(d: Desk, m: MouseMove, e: Edge) {
    && d.active.Some? && !RemoteActive(d)
    && var p := LocalPoint(d.active.value, m);
    && d.pendingWarp != Some(p)
    && T.HitEdge(d.store.grid, p) == Some(e)
    && T.MapEntryPoint(d.store.grid, p, e).Entry?
    && d.store.grid.screens[p.key].local
    && Inside(p.x, p.y, d.store.grid.screens[p.key].info)
    && var q := T.MapEntryPoint(d.store.grid, p, e).point;
       q.key in d.store.grid.screens && !d.store.grid.screens[q.key].local
  }

  lemma LeavingSwitches(d: Desk, m: MouseMove, e: Edge, warpOk: bool)
    requires Leaves(d, m, e)
    ensures var p := LocalPoint(d.active.value, m);
            Handle(d, MoveEvent(m), warpOk) ==
              SwitchActive(d.(lastMouse := Some(m), point := Some(p)),
                           T.MapEntryPoint(d.store.grid, p, e).point, warpOk)
  {
    hide SwitchActive, T.MapEntryPoint, T.HitEdge;
  }

  lemma LeavingEnters(d: Desk, m: MouseMove, e: Edge, warpOk: bool)
    requires DeskOk(d) && Synced(d.store) && Leaves(d, m, e)
    ensures var p := LocalPoint(d.active.value, m);
            var q := T.MapEntryPoint(d.store.grid, p, e).point;
            var r := Handle(d, MoveEvent(m), warpOk);
            && DeskOk(r) && CursorOk(r) && RemoteActive(r) && r.store == d.store
            && r.point == Some(q) && r.active == Find(d.store.nodes, q.key)
            && Matches(r.active.value.screen, d.store.grid.screens[q.key])
            && (r.capture.Some? <==> d.capture.Some?)
            && r.lastMouse == Some(m)
            && T.OnBorder(p.x, p.y, d.store.grid.screens[p.key].info, e)
  {
    hide SwitchActive, T.MapEntryPoint, Handle, DeskOk, CursorOk, Find, T.BorderOf, T.OnBorder;
    HandleKeepsLive(d, m, warpOk);
    LeavingSwitches(d, m, e, warpOk);
    var p := LocalPoint(d.active.value, m);
    var seen := d.(lastMouse := Some(m), point := Some(p));
    SwitchLandsInside(seen, p, e, warpOk);
    SwitchKeepsBaseline(seen, T.MapEntryPoint(d.store.grid, p, e).point, warpOk);
    HitIsOnBorder(p.x, p.y, d.store.grid.screens[p.key].info, e);
  }

  lemma HandleKeepsLive(d: Desk, m: MouseMove, warpOk: bool)
    requires DeskOk(d) && Synced(d.store) && !RemoteActive(d)
    ensures var r := Handle(d, MoveEvent(m), warpOk); DeskOk(r) && CursorOk(r) && r.store == d.store
  {
    HandleKeeps(d, MoveEvent(m), warpOk);
  }

  lemma HitIsOnBorder(x: int, y: int, info: ScreenInfo, e: Edge)
    requires Inside(x, y, info) && T.BorderOf(x, y, info) == Some(e)
    ensures T.OnBorder(x, y, info, e)
  {
  }

  lemma SwitchKeepsBaseline(d: Desk, p: ScreenPoint, warpOk: bool)
    ensures var r := SwitchActive(d, p, warpOk);
            r.lastMouse == d.lastMouse && (r.capture.Some? <==> d.capture.Some?)
  {
  }

  /** What crossing back does: the neighbour across the opposite edge is the local screen that was left. */
  lemma CrossingBack(d: Desk, next: ScreenPoint, e: Edge, warpOk: bool)
    requires DeskOk(d) && Synced(d.store) && RemoteActive(d) && CursorOk(d)
    requires T.HitEdge(d.store.grid, next) == Some(e) && T.MapEntryPoint(d.store.grid, next, e).Entry?
    requires d.store.grid.screens[T.MapEntryPoint(d.store.grid, next, e).point.key].local
    ensures var back := T.MapEntryPoint(d.store.grid, next, e).point;
            var r := MoveCursorTo(d, next, warpOk);
            && r.active == Find(d.store.nodes, back.key) && r.active.Some? && r.active.value.screen.local
            && r.point == Some(back)
            && (d.capture.Some? ==>
                  && r.capture.Some?
                  && r.capture.value.warps == d.capture.value.warps
                                              + [WarpCommand(back.key.screenIndex, back.x, back.y, warpOk)])
  {
    SwitchLandsInside(d, next, e, warpOk);
  }

  /** The cursor is on its way out through edge e. */
  ghost predicate HeadsOut(d: Desk, m: MouseMove, e: Edge) {
    && d.point.Some?
    && var (dx, dy) := Motion(d.lastMouse, m);
    && (dx != 0 || dy != 0) && StraightAt(e, dx, dy)
    && T.HitEdge(d.store.grid, d.point.value.(x := d.point.value.x + dx, y := d.point.value.y + dy)) == Some(e)
  }

  /** The gesture ended on the border the pointer left through, and on the very pixel if the remote border is as long. */
  ghost predicate CameHome(d: Desk, p: ScreenPoint, e: Edge, before: Desk, r: Desk, warpOk: bool) {
    && p.key in d.store.grid.screens && T.MapEntryPoint(d.store.grid, p, e).Entry?
    && var q := T.MapEntryPoint(d.store.grid, p, e).point;
       var here := d.store.grid.screens[p.key].info;
    && q.key in d.store.grid.screens
    && r.active == Find(d.store.nodes, p.key) && r.active.Some? && r.active.value.screen.local
    && r.point.Some? && r.point.value.key == p.key
    && T.OnBorder(r.point.value.x, r.point.value.y, here, e)
    && (T.ExtentAlong(here, e) <= T.ExtentAlong(d.store.grid.screens[q.key].info, e) ==> r.point.value == p)
    && (before.capture.Some? ==>
          && r.capture.Some?
          && r.capture.value.warps == before.capture.value.warps
             + [WarpCommand(p.key.screenIndex, r.point.value.x, r.point.value.y, warpOk)])
  }

  /**
   * Leaving the host through edge e, moving on the remote screen only straight at that
   * edge, and going out through the opposite edge brings the pointer back to the border
   * it left through; to the very pixel when the remote border is at least as long; and
   * the OS cursor is told so.
   */
  lemma RoundTripComesHome(d: Desk, m: MouseMove, e: Edge, warpOk: bool, samples: seq<Sample>, last: Sample)
    requires DeskOk(d) && Synced(d.store) && Leaves(d, m, e)
    requires var away := Handle(d, MoveEvent(m), warpOk);
             && Stays(away, samples) && AllStraight(away, samples, e)
             && HeadsOut(Follow(away, samples), last.move, e.Opposite())
    ensures var before := Follow(Handle(d, MoveEvent(m), warpOk), samples);
            CameHome(d, LocalPoint(d.active.value, m), e, before,
                     Handle(before, MoveEvent(last.move), last.warpOk), last.warpOk)
  {
    hide Stays, AllStraight, DeskOk, MoveCursorTo, Motion, Follow;
    var p := LocalPoint(d.active.value, m);
    LeavingEnters(d, m, e, warpOk);
    var away := Handle(d, MoveEvent(m), warpOk);
    StraightKeepsLane(away, samples, e);
    var before := Follow(away, samples);
    var (dx, dy) := Motion(before.lastMouse, last.move);
    OutAndHome(before, last.move, dx, dy, p, e, last.warpOk);
  }

  lemma OutAndHome(d: Desk, m: MouseMove, dx: int, dy: int, p: ScreenPoint, e: Edge, warpOk: bool)
    requires DeskOk(d) && Synced(d.store) && RemoteActive(d) && CursorOk(d) && HeadsOut(d, m, e.Opposite())
    requires Motion(d.lastMouse, m) == (dx, dy)
    requires p.key in d.store.grid.screens && T.MapEntryPoint(d.store.grid, p, e).Entry?
    requires d.store.grid.screens[p.key].local
    requires Inside(p.x, p.y, d.store.grid.screens[p.key].info)
    requires T.OnBorder(p.x, p.y, d.store.grid.screens[p.key].info, e)
    requires var q := T.MapEntryPoint(d.store.grid, p, e).point;
             && d.point.value.key == q.key
             && T.SameAlong(d.point.value.x, d.point.value.y, q.x, q.y, e)
    ensures CameHome(d, p, e, d, Handle(d, MoveEvent(m), warpOk), warpOk)
  {
    hide MoveCursorTo, Motion, Find, T.MapEntryPoint, T.HitEdge, Handle, DeskOk, T.OnBorder, T.Inverse,
      T.ExtentAlong, T.SameAlong, StraightAt, Inside, Synced, CursorOk;
    SampleKeeps(d, m);
    var c := d.point.value;
    var next := c.(x := c.x + dx, y := c.y + dy);
    StaysInLane(c, T.MapEntryPoint(d.store.grid, p, e).point, e, dx, dy);
    T.EntryLandsInside(d.store.grid, p, e);
    T.EntryAndBack(d.store.grid, p, e, next.x, next.y);
    var seen := d.(lastMouse := Some(m));
    MovingIs(d, m, dx, dy, warpOk);
    CrossingBack(seen, next, e.Opposite(), warpOk);
  }

  lemma StaysInLane(c: ScreenPoint, q: ScreenPoint, e: Edge, dx: int, dy: int)
    requires T.SameAlong(c.x, c.y, q.x, q.y, e) && StraightAt(e.Opposite(), dx, dy)
    ensures T.SameAlong(c.x + dx, c.y + dy, q.x, q.y, e)
  {
  }

  lemma SampleKeeps(d: Desk, m: MouseMove)
    requires DeskOk(d) && RemoteActive(d) && CursorOk(d)
    ensures var seen := d.(lastMouse := Some(m));
            DeskOk(seen) && RemoteActive(seen) && CursorOk(seen) && T.Inverse(d.store.grid)
  {
  }

  lemma MovingIs(d: Desk, m: MouseMove, dx: int, dy: int, warpOk: bool)
    requires RemoteActive(d) && CursorOk(d) && Motion(d.lastMouse, m) == (dx, dy) && (dx != 0 || dy != 0)
    ensures var c := d.point.value;
            Handle(d, MoveEvent(m), warpOk)
            == MoveCursorTo(d.(lastMouse := Some(m)), c.(x := c.x + dx, y := c.y + dy), warpOk)
  {
    hide MoveCursorTo, Motion;
    assert d.(point := d.point, lastMouse := Some(m)) == d.(lastMouse := Some(m));
  }

  /** A single move straight back, from the entry pixel, does leave through the opposite edge. */
  lemma StraightBackHeadsOut(d: Desk, m: MouseMove, e: Edge, warpOk: bool, back: MouseMove)
    requires DeskOk(d) && Synced(d.store) && Leaves(d, m, e)
    requires var p := LocalPoint(d.active.value, m);
             T.ExtentAlong(d.store.grid.screens[p.key].info, e)
             <= T.ExtentAlong(d.store.grid.screens[T.MapEntryPoint(d.store.grid, p, e).point.key].info, e)
    requires var (dx, dy) := Motion(Some(m), back); Towards(e.Opposite(), dx, dy)
    ensures HeadsOut(Handle(d, MoveEvent(m), warpOk), back, e.Opposite())
  {
    hide Handle, DeskOk, Motion, Find;
    LeavingEnters(d, m, e, warpOk);
    var p := LocalPoint(d.active.value, m);
    var q := T.MapEntryPoint(d.store.grid, p, e).point;
    var (dx, dy) := Motion(Some(m), back);
    T.EntryLandsInside(d.store.grid, p, e);
    BackAcrossBorder(p.x, p.y, d.store.grid.screens[p.key].info, d.store.grid.screens[q.key].info, e, dx, dy);
  }

  /** From the entry pixel, motion towards where one came from hits the border one came through. */
  lemma BackAcrossBorder(x: int, y: int, s: ScreenInfo, t: ScreenInfo, e: Edge, dx: int, dy: int)
    requires Inside(x, y, s) && ValidRect(t) && T.BorderOf(x, y, s) == Some(e)
    requires T.ExtentAlong(s, e) <= T.ExtentAlong(t, e) && Towards(e.Opposite(), dx, dy)
    ensures var (qx, qy) := T.EntryPixel(x, y, s, t, e); T.BorderOf(qx + dx, qy + dy, t) == Some(e.Opposite())
  {
    if e.Top? || e.Bottom? {
      EntryKeepsInterior(x, s.width, t.width);
    }
  }

  /**
   * Leaving the host at a pixel through any of its four edges and coming straight back
   * puts the OS cursor on exactly that pixel, whenever the remote screen's extent along
   * the shared edge is at least the local one.
   */
  lemma StraightBackComesHome(d: Desk, m: MouseMove, e: Edge, warpOk: bool, back: Sample)
    requires DeskOk(d) && Synced(d.store) && Leaves(d, m, e)
    requires var p := LocalPoint(d.active.value, m);
             T.ExtentAlong(d.store.grid.screens[p.key].info, e)
             <= T.ExtentAlong(d.store.grid.screens[T.MapEntryPoint(d.store.grid, p, e).point.key].info, e)
    requires var (dx, dy) := Motion(Some(m), back.move); Towards(e.Opposite(), dx, dy)
    ensures var p := LocalPoint(d.active.value, m);
            var away := Handle(d, MoveEvent(m), warpOk);
            var home := Handle(away, MoveEvent(back.move), back.warpOk);
            && home.active == Find(d.store.nodes, p.key)
            && home.point == Some(p)
            && (away.capture.Some? ==>
                  && home.capture.Some?
                  && home.capture.value.warps == away.capture.value.warps
                     + [WarpCommand(p.key.screenIndex, p.x, p.y, back.warpOk)])
  {
    hide Handle, DeskOk, Leaves;
    StraightBackHeadsOut(d, m, e, warpOk, back.move);
    var away := Handle(d, MoveEvent(m), warpOk);
    assert Follow(away, []) == away;
    RoundTripComesHome(d, m, e, warpOk, [], back);
  }

  // ----- The echo of a warp -----

  /** A captured event, and whether the backend would carry out a cursor move at that time. */
  datatype Timed = Timed(event: InputEvent, warpOk: bool)

  function HandleAll(d: Desk, events: seq<Timed>): Desk {
    if events == [] then d
    else
      var last := events[|events| - 1];
      Handle(HandleAll(d, events[..|events| - 1]), last.event, last.warpOk)
  }

  /** While the node is active, the event is a sample that names the pixel. */
  predicate Names(active: Node, event: InputEvent, p: ScreenPoint) {
    event.MoveEvent? && LocalPoint(active, event.move) == p
  }

  predicate AnyNames(active: Node, events: seq<Timed>, p: ScreenPoint) {
    exists i :: 0 <= i < |events| && Names(active, events[i].event, p)
  }

  /** No sample is one that crosses; the first to name the awaited pixel is taken for the echo and so never does. */
  ghost predicate NoneCrosses(g: T.Grid, active: Node, events: seq<Timed>, p: ScreenPoint) {
    forall i :: 0 <= i < |events| && events[i].event.MoveEvent? ==>
      || !LeadsAcross(g, LocalPoint(active, events[i].event.move))
      || (Names(active, events[i].event, p) && !AnyNames(active, events[..i], p))
  }

  /** At home, with the same screen active and the echo awaited or not. */
  ghost predicate AtHome(home: Desk, r: Desk, p: ScreenPoint, awaited: bool) {
    && r.active == home.active && r.store == home.store && r.capture == home.capture && r.channels == home.channels
    && r.pendingWarp == (if awaited then Some(p) else None)
    && r.history == home.history.(suppressed := home.history.suppressed + (if awaited then 0 else 1))
  }

  /** One event between the warp and its echo. */
  lemma OneEventAtHome(home: Desk, r: Desk, p: ScreenPoint, awaited: bool, t: Timed)
    requires home.active.Some? && !RemoteActive(home) && AtHome(home, r, p, awaited)
    requires t.event.MoveEvent? ==>
               || !LeadsAcross(home.store.grid, LocalPoint(home.active.value, t.event.move))
               || (Names(home.active.value, t.event, p) && awaited)
    ensures AtHome(home, Handle(r, t.event, t.warpOk), p, awaited && !Names(home.active.value, t.event, p))
  {
    hide T.HitEdge, T.MapEntryPoint, SwitchActive;
  }

  lemma {:induction false} EventsAtHome(home: Desk, p: ScreenPoint, events: seq<Timed>)
    requires home.active.Some? && !RemoteActive(home) && home.pendingWarp == Some(p)
    requires NoneCrosses(home.store.grid, home.active.value, events, p)
    ensures AtHome(home, HandleAll(home, events), p, !AnyNames(home.active.value, events, p))
    decreases |events|
  {
    hide Handle, LeadsAcross, AtHome, LocalPoint;
    var n := home.active.value;
    if events == [] {
      NothingYet(home, p);
    } else {
      var front, last := events[..|events| - 1], events[|events| - 1];
      NoneCrossesFront(home.store.grid, n, events, p);
      EventsAtHome(home, p, front);
      OneEventAtHome(home, HandleAll(home, front), p, !AnyNames(n, front, p), last);
    }
  }

  lemma NothingYet(home: Desk, p: ScreenPoint)
    requires home.pendingWarp == Some(p)
    ensures AtHome(home, home, p, true)
  {
  }

  lemma NoneCrossesFront(g: T.Grid, n: Node, events: seq<Timed>, p: ScreenPoint)
    requires events != [] && NoneCrosses(g, n, events, p)
    ensures var front, last := events[..|events| - 1], events[|events| - 1];
            && NoneCrosses(g, n, front, p)
            && (AnyNames(n, events, p) <==> AnyNames(n, front, p) || Names(n, last.event, p))
            && (last.event.MoveEvent? ==>
                  || !LeadsAcross(g, LocalPoint(n, last.event.move))
                  || (Names(n, last.event, p) && !AnyNames(n, front, p)))
  {
    hide LeadsAcross, LocalPoint, Names;
    var front := events[..|events| - 1];
    forall i | 0 <= i < |front| ensures front[..i] == events[..i] && front[i] == events[i] { }
    assert events[|events| - 1..] == [events[|events| - 1]];
    if AnyNames(n, events, p) {
      var i :| 0 <= i < |events| && Names(n, events[i].event, p);
      assert i < |front| ==> front[i] == events[i];
    }
    if AnyNames(n, front, p) {
      var i :| 0 <= i < |front| && Names(n, front[i].event, p);
      assert events[i] == front[i];
    }
  }

  /** What a sample at home on the awaited pixel does: swallowed if awaited, else like any other sample. */
  lemma SampleOnPixel(home: Desk, r: Desk, p: ScreenPoint, awaited: bool, echo: MouseMove, warpOk: bool)
    requires StoreOk(home.store) && home.active.Some? && !RemoteActive(home) && AtHome(home, r, p, awaited)
    requires LocalPoint(home.active.value, echo) == p && p.key == home.active.value.screen.key
    ensures var after := Handle(r, MoveEvent(echo), warpOk);
            var seen := r.(lastMouse := Some(echo), point := Some(p));
            if awaited then
              after == seen.(pendingWarp := None,
                             history := home.history.(suppressed := home.history.suppressed + 1))
            else if LeadsAcross(home.store.grid, p) then
              && (var e := T.HitEdge(home.store.grid, p).value;
                  after == SwitchActive(seen, T.MapEntryPoint(home.store.grid, p, e).point, warpOk))
              && after.active.Some? && after.active.value.screen.key != p.key
            else after == seen
  {
    hide T.HitEdge, T.MapEntryPoint, SwitchActive, StoreOk, Find;
    if !awaited && LeadsAcross(home.store.grid, p) {
      SwitchFindsNeighbor(r.(lastMouse := Some(echo), point := Some(p)), p, warpOk);
    }
  }

  lemma SwitchFindsNeighbor(d: Desk, p: ScreenPoint, warpOk: bool)
    requires StoreOk(d.store) && LeadsAcross(d.store.grid, p)
    ensures var target := T.MapEntryPoint(d.store.grid, p, T.HitEdge(d.store.grid, p).value).point;
            var r := SwitchActive(d, target, warpOk);
            r.active.Some? && r.active.value.screen.key == target.key && target.key != p.key
  {
    hide Enqueue, WarpToActivePoint, T.HitEdge;
    var e := T.HitEdge(d.store.grid, p).value;
    NotItsOwnNeighbor(d.store.grid, p, e);
    T.EntryLandsInside(d.store.grid, p, e);
    FindGridScreen(d.store, T.MapEntryPoint(d.store.grid, p, e).point.key);
    SwitchGoes(d, T.MapEntryPoint(d.store.grid, p, e).point, warpOk);
  }

  lemma SwitchGoes(d: Desk, target: ScreenPoint, warpOk: bool)
    requires Find(d.store.nodes, target.key).Some?
    ensures SwitchActive(d, target, warpOk).active == Find(d.store.nodes, target.key)
  {
  }

  /** A switch to a local screen whose warp is carried out awaits the echo. */
  lemma WarpIsAwaited(d: Desk, p: ScreenPoint)
    requires d.capture.Some?
    requires Find(d.store.nodes, p.key).Some? && Find(d.store.nodes, p.key).value.screen.local
    ensures var home := SwitchActive(d, p, true);
            && home.pendingWarp == Some(p) && home.history == d.history.(warps := d.history.warps + 1)
            && home.active == Find(d.store.nodes, p.key) && !RemoteActive(home) && home.store == d.store
  {
  }

  /**
   * After a warp that the backend carried out, let any events arrive none of which
   * crosses, and then the echo. Nothing before the echo changes the active screen, the
   * queues or the capture. The echo is swallowed exactly when no earlier sample names its
   * pixel; one that does is taken for it. So the echo causes a second crossing exactly
   * when an earlier sample names its pixel and that pixel leads across an edge.
   */
  lemma WarpEchoCrossesExactlyWhen(d: Desk, p: ScreenPoint, events: seq<Timed>, echo: MouseMove, warpOk: bool)
    requires d.capture.Some? && StoreOk(d.store)
    requires Find(d.store.nodes, p.key).Some? && Find(d.store.nodes, p.key).value.screen.local
    requires NoneCrosses(d.store.grid, Find(d.store.nodes, p.key).value, events, p)
    requires echo.x == p.x && echo.y == p.y && echo.screenIndex == p.key.screenIndex
    ensures var home := SwitchActive(d, p, true);
            var before := HandleAll(home, events);
            var after := Handle(before, MoveEvent(echo), warpOk);
            var named := AnyNames(Find(d.store.nodes, p.key).value, events, p);
            var swallowed := before.(lastMouse := Some(echo), point := Some(p), pendingWarp := None,
                                     history := before.history.(suppressed := before.history.suppressed + 1));
            && home.pendingWarp == Some(p) && home.history.warps == d.history.warps + 1
            && AtHome(home, before, p, !named)
            && (after == swallowed <==> !named)
            && (after.active != home.active <==> named && LeadsAcross(d.store.grid, p))
            && (after.active == home.active ==> AtHome(home, after, p, false))
  {
    hide Handle, SwitchActive, StoreOk, Find, LeadsAcross, NoneCrosses, AnyNames;
    var home := SwitchActive(d, p, true);
    WarpIsAwaited(d, p);
    var n := home.active.value;
    EventsAtHome(home, p, events);
    SampleOnPixel(home, HandleAll(home, events), p, !AnyNames(n, events, p), echo, warpOk);
  }
}
