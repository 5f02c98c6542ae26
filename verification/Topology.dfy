/**
 * The screen grid: which screen sits in which integer cell, which screen lies
 * across an edge, and where the pointer enters it.
 */
module Topology {
  import opened Core
  import opened EntryMap

  datatype TopologyError = InvalidScreenRect | DuplicateScreen | CellOccupied | UnknownScreen | MissingNeighbor

  datatype TopologyScreen = TopologyScreen(key: ScreenKey, cell: GridPosition, info: ScreenInfo, local: bool)

  datatype EntryResult = Entry(point: ScreenPoint) | NoEntry(error: TopologyError)

  /** The value of a ScreenTopology object: screens by key and keys by cell. */
  datatype Grid = Grid(screens: map<ScreenKey, TopologyScreen>, cells: map<GridPosition, ScreenKey>)

  const EMPTY_GRID := Grid(map[], map[])

  /** The two maps are inverse to each other and hold drawable screens under their own key. */
  ghost predicate Inverse(g: Grid) {
    && (forall k :: k in g.screens ==>
          && g.screens[k].key == k
          && ValidRect(g.screens[k].info)
          && g.screens[k].cell in g.cells
          && g.cells[g.screens[k].cell] == k)
    && (forall c :: c in g.cells ==> g.cells[c] in g.screens && g.screens[g.cells[c]].cell == c)
  }

  /** Why a screen cannot be added, if it cannot: the first failing check wins. */
  function AddError(g: Grid, s: TopologyScreen): Option<TopologyError> {
    if !ValidRect(s.info) then Some(InvalidScreenRect)
    else if s.key in g.screens then Some(DuplicateScreen)
    else if s.cell in g.cells then Some(CellOccupied)
    else None
  }

  function Add(g: Grid, s: TopologyScreen): Grid {
    if AddError(g, s).Some? then g
    else Grid(g.screens[s.key := s], g.cells[s.cell := s.key])
  }

  /** Keep exactly the screens whose owner is not in the set. */
  function RemoveOwners(g: Grid, owners: set<string>): Grid {
    Grid(map k | k in g.screens && k.ownerId !in owners :: g.screens[k],
         map c | c in g.cells && g.cells[c].ownerId !in owners :: g.cells[c])
  }

  function NeighborCell(c: GridPosition, e: Edge): GridPosition {
    match e
    case Left => c.(x := c.x - 1)
    case Right => c.(x := c.x + 1)
    case Top => c.(y := c.y - 1)
    case Bottom => c.(y := c.y + 1)
  }

  function FindNeighbor(g: Grid, k: ScreenKey, e: Edge): Option<ScreenKey> {
    if k !in g.screens then None
    else
      var c := NeighborCell(g.screens[k].cell, e);
      if c in g.cells then Some(g.cells[c]) else None
  }

  /** Left and Right are tried before Top and Bottom. */
  function BorderOf(x: int, y: int, info: ScreenInfo): Option<Edge> {
    if x <= 0 then Some(Left)
    else if info.width - 1 <= x then Some(Right)
    else if y <= 0 then Some(Top)
    else if info.height - 1 <= y then Some(Bottom)
    else None
  }

  function HitEdge(g: Grid, p: ScreenPoint): Option<Edge> {
    if p.key in g.screens then BorderOf(p.x, p.y, g.screens[p.key].info) else None
  }

  /** The pixel of the target screen reached by leaving the source screen through edge e at (x, y). */
  function EntryPixel(x: int, y: int, source: ScreenInfo, target: ScreenInfo, e: Edge): (int, int) {
    match e
    case Left => (target.width - 1, EntryCoordinate(y, source.height, target.height))
    case Right => (0, EntryCoordinate(y, source.height, target.height))
    case Top => (EntryCoordinate(x, source.width, target.width), target.height - 1)
    case Bottom => (EntryCoordinate(x, source.width, target.width), 0)
  }

  function MapEntryPoint(g: Grid, from: ScreenPoint, e: Edge): EntryResult {
    if from.key !in g.screens then NoEntry(UnknownScreen)
    else
      match FindNeighbor(g, from.key, e)
      case None => NoEntry(MissingNeighbor)
      case Some(target) =>
        if target !in g.screens then NoEntry(UnknownScreen)
        else
          var (x, y) := EntryPixel(from.x, from.y, g.screens[from.key].info, g.screens[target].info, e);
          Entry(ScreenPoint(target, x, y))
  }

  // ----- Laws of the grid -----

  lemma AddKeepsInverse(g: Grid, s: TopologyScreen)
    requires Inverse(g)
    ensures Inverse(Add(g, s))
  {
  }

  lemma RemoveOwnersKeepsInverse(g: Grid, owners: set<string>)
    requires Inverse(g)
    ensures Inverse(RemoveOwners(g, owners))
  {
    var r := RemoveOwners(g, owners);
    forall k | k in r.screens ensures r.screens[k].cell in r.cells {
      assert g.cells[g.screens[k].cell] == k;
    }
  }

  /** Lookup through the cell index is a search of the screens for the adjacent cell. */
  lemma NeighborIsTheAdjacentScreen(g: Grid, k: ScreenKey, e: Edge, t: ScreenKey)
    requires Inverse(g)
    ensures FindNeighbor(g, k, e) == Some(t) <==>
            k in g.screens && t in g.screens && g.screens[t].cell == NeighborCell(g.screens[k].cell, e)
  {
    if k in g.screens && t in g.screens && g.screens[t].cell == NeighborCell(g.screens[k].cell, e) {
      assert g.cells[g.screens[t].cell] == t;
    }
  }

  lemma NeighborSymmetric(g: Grid, k: ScreenKey, e: Edge, t: ScreenKey)
    requires Inverse(g)
    ensures FindNeighbor(g, k, e) == Some(t) <==> FindNeighbor(g, t, e.Opposite()) == Some(k)
  {
    NeighborIsTheAdjacentScreen(g, k, e, t);
    NeighborIsTheAdjacentScreen(g, t, e.Opposite(), k);
  }

  /** No two screens share a cell. */
  lemma CellsDistinct(g: Grid, a: ScreenKey, b: ScreenKey)
    requires Inverse(g) && a in g.screens && b in g.screens && a != b
    ensures g.screens[a].cell != g.screens[b].cell
  {
    assert g.cells[g.screens[a].cell] == a;
  }

  /** As many cells are taken as there are screens. */
  lemma {:induction false} AsManyCellsAsScreens(g: Grid)
    requires Inverse(g)
    ensures |g.cells| == |g.screens|
    decreases |g.screens|
  {
    if k :| k in g.screens {
      var c := g.screens[k].cell;
      var rest := Grid(g.screens - {k}, g.cells - {c});
      assert |rest.screens.Keys| == |g.screens.Keys - {k}| && rest.screens.Keys == g.screens.Keys - {k};
      assert |rest.cells.Keys| == |g.cells.Keys - {c}| && rest.cells.Keys == g.cells.Keys - {c};
      AsManyCellsAsScreens(rest);
    } else {
      assert g.cells == map[];
    }
  }

  /**
   * Which edge a point tries to cross, on the screen or beyond it: the sides before the
   * top and the bottom, so a corner belongs to a side. A point of no screen tries none.
   */
  lemma HitEdgeInNumbers(g: Grid, p: ScreenPoint)
    ensures p.key !in g.screens ==> HitEdge(g, p).None?
    ensures p.key in g.screens ==>
              var (lastX, lastY) := (g.screens[p.key].info.width - 1, g.screens[p.key].info.height - 1);
              && (HitEdge(g, p) == Some(Left) <==> p.x <= 0)
              && (HitEdge(g, p) == Some(Right) <==> 0 < p.x && lastX <= p.x)
              && (HitEdge(g, p) == Some(Top) <==> 0 < p.x < lastX && p.y <= 0)
              && (HitEdge(g, p) == Some(Bottom) <==> 0 < p.x < lastX && 0 < p.y && lastY <= p.y)
  {
  }

  /**
   * Where each edge leads, in numbers: left of cell (x, y) is (x-1, y), right of it
   * (x+1, y), above it (x, y-1), below it (x, y+1). One enters the screen there on its
   * last column, first column, last row, first row, at the mapped height or width.
   */
  lemma EntryInNumbers(g: Grid, from: ScreenPoint, t: ScreenKey)
    requires Inverse(g) && from.key in g.screens && t in g.screens
    ensures var s, u := g.screens[from.key], g.screens[t];
            var (x, y) := (s.cell.x, s.cell.y);
            var row := EntryCoordinate(from.y, s.info.height, u.info.height);
            var column := EntryCoordinate(from.x, s.info.width, u.info.width);
            && (MapEntryPoint(g, from, Left) == Entry(ScreenPoint(t, u.info.width - 1, row))
                <==> u.cell == GridPosition(x - 1, y))
            && (MapEntryPoint(g, from, Right) == Entry(ScreenPoint(t, 0, row))
                <==> u.cell == GridPosition(x + 1, y))
            && (MapEntryPoint(g, from, Top) == Entry(ScreenPoint(t, column, u.info.height - 1))
                <==> u.cell == GridPosition(x, y - 1))
            && (MapEntryPoint(g, from, Bottom) == Entry(ScreenPoint(t, column, 0))
                <==> u.cell == GridPosition(x, y + 1))
  {
    forall e {
      NeighborIsTheAdjacentScreen(g, from.key, e, t);
    }
  }

  /** There is an entry exactly if some screen has that cell; if none has, the neighbour is missing. */
  lemma EntryExistsWhen(g: Grid, from: ScreenPoint)
    requires Inverse(g)
    ensures from.key !in g.screens ==> forall e :: MapEntryPoint(g, from, e) == NoEntry(UnknownScreen)
    ensures from.key in g.screens ==>
              var (x, y) := (g.screens[from.key].cell.x, g.screens[from.key].cell.y);
              && (MapEntryPoint(g, from, Left).Entry? <==> HasCell(g, x - 1, y))
              && (MapEntryPoint(g, from, Right).Entry? <==> HasCell(g, x + 1, y))
              && (MapEntryPoint(g, from, Top).Entry? <==> HasCell(g, x, y - 1))
              && (MapEntryPoint(g, from, Bottom).Entry? <==> HasCell(g, x, y + 1))
              && forall e :: !MapEntryPoint(g, from, e).Entry? ==> MapEntryPoint(g, from, e) == NoEntry(MissingNeighbor)
  {
    CellsAreTaken(g);
  }

  ghost predicate HasCell(g: Grid, x: int, y: int) {
    exists k :: k in g.screens && g.screens[k].cell == GridPosition(x, y)
  }

  lemma CellsAreTaken(g: Grid)
    requires Inverse(g)
    ensures forall x, y :: HasCell(g, x, y) <==> GridPosition(x, y) in g.cells
  {
    forall x, y ensures HasCell(g, x, y) <==> GridPosition(x, y) in g.cells {
      if GridPosition(x, y) in g.cells {
        assert g.screens[g.cells[GridPosition(x, y)]].cell == GridPosition(x, y);
      }
    }
  }

  /** A successful mapping ends on a pixel of a registered screen, wherever it started. */
  lemma EntryLandsInside(g: Grid, from: ScreenPoint, e: Edge)
    requires Inverse(g) && MapEntryPoint(g, from, e).Entry?
    ensures var p := MapEntryPoint(g, from, e).point;
            && FindNeighbor(g, from.key, e) == Some(p.key)
            && p.key in g.screens
            && Inside(p.x, p.y, g.screens[p.key].info)
  {
    var p := MapEntryPoint(g, from, e).point;
    var s, t := g.screens[from.key].info, g.screens[p.key].info;
    EntryInRange(from.y, s.height, t.height);
    EntryInRange(from.x, s.width, t.width);
  }

  /** The pixel lies on border e of its screen. */
  predicate OnBorder(x: int, y: int, info: ScreenInfo, e: Edge) {
    match e
    case Left => x == 0
    case Right => x == info.width - 1
    case Top => y == 0
    case Bottom => y == info.height - 1
  }

  /** Extent of the border that edge e and its neighbour share. */
  function ExtentAlong(info: ScreenInfo, e: Edge): int {
    if e.Left? || e.Right? then info.height else info.width
  }

  /** Two pixels agree in the coordinate that runs along edge e. */
  predicate SameAlong(x: int, y: int, x': int, y': int, e: Edge) {
    if e.Left? || e.Right? then y == y' else x == x'
  }

  /**
   * Crossing an edge and mapping back across the opposite edge, from any point with
   * the same coordinate along the border, returns to the source screen on the border
   * it was left through; and to the very pixel when the neighbour's border is at
   * least as long.
   */
  lemma EntryAndBack(g: Grid, from: ScreenPoint, e: Edge, x: int, y: int)
    requires Inverse(g) && MapEntryPoint(g, from, e).Entry?
    requires var there := MapEntryPoint(g, from, e).point; SameAlong(x, y, there.x, there.y, e)
    ensures var there := MapEntryPoint(g, from, e).point;
            var back := MapEntryPoint(g, ScreenPoint(there.key, x, y), e.Opposite());
            var source := g.screens[from.key].info;
            && back.Entry? && back.point.key == from.key
            && OnBorder(back.point.x, back.point.y, source, e)
            && (Inside(from.x, from.y, source) && OnBorder(from.x, from.y, source, e)
                && ExtentAlong(source, e) <= ExtentAlong(g.screens[there.key].info, e)
                ==> back.point == from)
  {
    var there := MapEntryPoint(g, from, e).point;
    NeighborSymmetric(g, from.key, e, there.key);
    var s, t := g.screens[from.key].info, g.screens[there.key].info;
    if Inside(from.x, from.y, s) && ExtentAlong(s, e) <= ExtentAlong(t, e) {
      if e.Left? || e.Right? {
        EntryRoundTrip(from.y, s.height, t.height);
      } else {
        EntryRoundTrip(from.x, s.width, t.width);
      }
    }
  }

  /** A grid from which exactly the owner's screens are gone. */
  lemma ErasedIsRemoved(g: Grid, after: Grid, o: string)
    requires Inverse(g) && Inverse(after)
    requires forall k :: k in after.screens ==> k in g.screens && after.screens[k] == g.screens[k] && k.ownerId != o
    requires forall k :: k in g.screens ==> k in after.screens || k.ownerId == o
    ensures after == RemoveOwners(g, {o})
  {
    var r := RemoveOwners(g, {o});
    assert after.screens == r.screens;
    RemoveOwnersKeepsInverse(g, {o});
    forall c ensures c in after.cells ==> c in r.cells && r.cells[c] == after.cells[c]
             ensures c in r.cells ==> c in after.cells {
      if c in after.cells {
        assert r.screens[after.cells[c]].cell == c;
      }
      if c in r.cells {
        assert after.screens[r.cells[c]].cell == c;
      }
    }
    assert after.cells == r.cells;
  }

  // ----- The object -----

  class ScreenTopology {
    var mScreens: map<ScreenKey, TopologyScreen>
    var mCells: map<GridPosition, ScreenKey>

    function Model(): Grid
      reads this
    {
      Grid(mScreens, mCells)
    }

    ghost predicate Valid()
      reads this
    {
      Inverse(Model())
    }

    constructor ()
      ensures Valid() && Model() == EMPTY_GRID
    {
      mScreens := map[];
      mCells := map[];
    }

    method AddScreen(screen: TopologyScreen) returns (error: Option<TopologyError>)
      requires Valid()
      modifies this
      ensures Valid()
      ensures error == AddError(old(Model()), screen)
      ensures Model() == Add(old(Model()), screen)
      // which check refuses, and that a refusal changes nothing
      ensures error == Some(InvalidScreenRect) <==> screen.info.width <= 0 || screen.info.height <= 0
      ensures error == Some(DuplicateScreen) <==>
              0 < screen.info.width && 0 < screen.info.height && screen.key in old(mScreens)
      ensures error.None? <==>
              (&& 0 < screen.info.width && 0 < screen.info.height
               && screen.key !in old(mScreens) && screen.cell !in old(mCells))
      ensures if error.Some? then Model() == old(Model()) else
                && mScreens == old(mScreens)[screen.key := screen]
                && mCells == old(mCells)[screen.cell := screen.key]
    {
      AddKeepsInverse(Model(), screen);
      if !ValidRect(screen.info) {
        return Some(InvalidScreenRect);
      }
      if screen.key in mScreens {
        return Some(DuplicateScreen);
      }
      if screen.cell in mCells {
        return Some(CellOccupied);
      }
      mScreens := mScreens[screen.key := screen];
      mCells := mCells[screen.cell := screen.key];
      return None;
    }

    /** Visits every screen once, erasing those of the owner together with their cells. */
    method RemoveOwner(ownerId: string)
      requires Valid()
      modifies this
      ensures Valid()
      ensures Model() == RemoveOwners(old(Model()), {ownerId})
    {
      RemoveOwnersKeepsInverse(Model(), {ownerId});
      var pending := mScreens.Keys;
      while pending != {}
        invariant pending <= mScreens.Keys
        invariant Valid()
        invariant forall k :: k in mScreens ==> k in old(mScreens) && mScreens[k] == old(mScreens)[k]
        invariant forall k :: k in old(mScreens) ==> k in mScreens || k.ownerId == ownerId
        invariant forall k :: k in mScreens && k !in pending ==> k.ownerId != ownerId
        decreases |pending|
      {
        var key :| key in pending;
        pending := pending - {key};
        if key.ownerId == ownerId {
          mCells := mCells - {mScreens[key].cell};
          mScreens := mScreens - {key};
        }
      }
      ErasedIsRemoved(old(Model()), Model(), ownerId);
    }
  }
}
