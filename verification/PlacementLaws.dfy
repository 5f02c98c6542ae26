/** Where registration puts screens: nothing displaced, nothing lost, no gaps, and the same again next time. */
module PlacementLaws {
  import opened Core
  import opened Config
  import opened Screens
  import opened StoreLaws
  import T = Topology

  ghost predicate OwnerAbsent(g: T.Grid, o: string) {
    forall k :: k in g.screens ==> k.ownerId != o
  }

  /** The cell a screen is to get: the remembered one if still free, else the anchor, else the next free one. */
  function CellFor(st: Store, e: Endpoint, o: string, infos: seq<ScreenInfo>, local: bool, i: nat): GridPosition
    requires i < |infos|
  {
    var g := PlaceFirst(st, e, o, infos, local, i).store.grid;
    match FindLayout(st.config.screens, ScreenKey(o, i))
    case Some(cell) => if cell in g.cells then FreeCellFrom(g, 1) else cell
    case None => if local && i == PrimaryIndex(infos) then GridPosition(0, 0) else FreeCellFrom(g, 1)
  }

  /** The only way a drawable screen is turned away: it is the unremembered local anchor and the origin is taken. */
  predicate AnchorRefused(st: Store, e: Endpoint, o: string, infos: seq<ScreenInfo>, local: bool, i: nat)
    requires i < |infos|
  {
    && local && i == PrimaryIndex(infos)
    && FindLayout(st.config.screens, ScreenKey(o, i)).None?
    && GridPosition(0, 0) in PlaceFirst(st, e, o, infos, local, i).store.grid.cells
  }

  predicate Accepted(st: Store, e: Endpoint, o: string, infos: seq<ScreenInfo>, local: bool, i: nat)
    requires i < |infos|
  {
    ValidRect(infos[i]) && !AnchorRefused(st, e, o, infos, local, i)
  }

  /** Screens of other owners are those that were there. */
  ghost predicate OthersKept(g: T.Grid, after: T.Grid, o: string) {
    && (forall k: ScreenKey :: k.ownerId != o ==> (k in after.screens <==> k in g.screens))
    && (forall k :: k in g.screens ==> k in after.screens && after.screens[k] == g.screens[k])
  }

  /** Of the owner's screens, exactly the accepted among the first n are in, each where it should be. */
  ghost predicate OwnPlaced(st: Store, e: Endpoint, o: string, infos: seq<ScreenInfo>, local: bool, n: nat, after: T.Grid)
    requires n <= |infos|
  {
    && (forall k :: k in after.screens && k.ownerId == o ==> k.screenIndex < n)
    && (forall i :: 0 <= i < n ==>
          (ScreenKey(o, i) in after.screens <==> Accepted(st, e, o, infos, local, i)))
    && (forall i :: 0 <= i < n && ScreenKey(o, i) in after.screens ==>
          after.screens[ScreenKey(o, i)]
          == T.TopologyScreen(ScreenKey(o, i), CellFor(st, e, o, infos, local, i), infos[i], local))
  }

  /** Only the first n screens of the owner have had their remembered cell touched. */
  ghost predicate OthersRemembered(before: seq<ScreenLayout>, after: seq<ScreenLayout>, o: string, n: nat) {
    forall k: ScreenKey :: k.ownerId != o || n <= k.screenIndex ==> FindLayout(after, k) == FindLayout(before, k)
  }

  /** State of the placement after n screens of an owner that had none. */
  ghost predicate PlacedSoFar(st: Store, e: Endpoint, o: string, infos: seq<ScreenInfo>, local: bool, n: nat)
    requires n <= |infos|
  {
    var p := PlaceFirst(st, e, o, infos, local, n);
    && (p.anchored <==> local && PrimaryIndex(infos) < n)
    && OthersKept(st.grid, p.store.grid, o)
    && OwnPlaced(st, e, o, infos, local, n, p.store.grid)
    && OthersRemembered(st.config.screens, p.store.config.screens, o, n)
  }

  lemma ChoiceIsCellFor(st: Store, e: Endpoint, o: string, infos: seq<ScreenInfo>, local: bool, n: nat)
    requires n < |infos|
    requires var p := PlaceFirst(st, e, o, infos, local, n);
             && (p.anchored <==> local && PrimaryIndex(infos) < n)
             && OthersRemembered(st.config.screens, p.store.config.screens, o, n)
    ensures var p := PlaceFirst(st, e, o, infos, local, n);
            var cell := ChooseCell(p, ScreenKey(o, n), IsAnchor(infos, n, local));
            && cell == CellFor(st, e, o, infos, local, n)
            && (cell in p.store.grid.cells <==> AnchorRefused(st, e, o, infos, local, n))
  {
    var p := PlaceFirst(st, e, o, infos, local, n);
    assert FindLayout(p.store.config.screens, ScreenKey(o, n)) == FindLayout(st.config.screens, ScreenKey(o, n));
  }

  /** What adding screen n does, given that its key is new. */
  lemma StepIs(st: Store, e: Endpoint, o: string, infos: seq<ScreenInfo>, local: bool, n: nat)
    requires n < |infos| && PlacedSoFar(st, e, o, infos, local, n)
    ensures var p, q := PlaceFirst(st, e, o, infos, local, n), PlaceFirst(st, e, o, infos, local, n + 1);
            var key, cell := ScreenKey(o, n), CellFor(st, e, o, infos, local, n);
            && key !in p.store.grid.screens
            && (q.anchored <==> local && PrimaryIndex(infos) < n + 1)
            && (if Accepted(st, e, o, infos, local, n) then
                  && q.store.grid.screens == p.store.grid.screens[key := T.TopologyScreen(key, cell, infos[n], local)]
                  && q.store.grid.cells == p.store.grid.cells[cell := key]
                  && var layouts := UpsertLayout(p.store.config.screens, ScreenLayout(key, cell));
                     q.store.config == p.store.config.(screens := layouts)
                else q.store == p.store)
  {
    ChoiceIsCellFor(st, e, o, infos, local, n);
  }

  lemma PlacementStep(st: Store, e: Endpoint, o: string, infos: seq<ScreenInfo>, local: bool, n: nat)
    requires n < |infos| && OwnerAbsent(st.grid, o) && PlacedSoFar(st, e, o, infos, local, n)
    ensures PlacedSoFar(st, e, o, infos, local, n + 1)
  {
    hide PlaceFirst, CellFor, Accepted, OwnerAbsent, OthersKept, OwnPlaced, OthersRemembered;
    StepIs(st, e, o, infos, local, n);
    var p, q := PlaceFirst(st, e, o, infos, local, n).store, PlaceFirst(st, e, o, infos, local, n + 1).store;
    OthersRememberedMore(st.config.screens, p.config.screens, o, n);
    if Accepted(st, e, o, infos, local, n) {
      var key, cell := ScreenKey(o, n), CellFor(st, e, o, infos, local, n);
      OthersKeptStep(st.grid, p.grid, q.grid, T.TopologyScreen(key, cell, infos[n], local), o);
      OwnPlacedStep(st, e, o, infos, local, n, p.grid, q.grid);
      RememberedStep(st.config.screens, p.config.screens, o, n, cell);
    } else {
      OwnPlacedStays(st, e, o, infos, local, n, p.grid);
    }
  }

  lemma OthersKeptStep(g: T.Grid, before: T.Grid, after: T.Grid, s: T.TopologyScreen, o: string)
    requires OthersKept(g, before, o) && OwnerAbsent(g, o) && s.key.ownerId == o
    requires after.screens == before.screens[s.key := s]
    ensures OthersKept(g, after, o)
  {
  }

  lemma OwnPlacedStays(st: Store, e: Endpoint, o: string, infos: seq<ScreenInfo>, local: bool, n: nat, g: T.Grid)
    requires n < |infos| && OwnPlaced(st, e, o, infos, local, n, g) && !Accepted(st, e, o, infos, local, n)
    ensures OwnPlaced(st, e, o, infos, local, n + 1, g)
  {
    hide CellFor, Accepted;
  }

  lemma OthersRememberedMore(before: seq<ScreenLayout>, after: seq<ScreenLayout>, o: string, n: nat)
    requires OthersRemembered(before, after, o, n)
    ensures OthersRemembered(before, after, o, n + 1)
  {
  }

  lemma OwnPlacedStep(st: Store, e: Endpoint, o: string, infos: seq<ScreenInfo>, local: bool, n: nat,
                      g: T.Grid, after: T.Grid)
    requires n < |infos| && OwnPlaced(st, e, o, infos, local, n, g) && Accepted(st, e, o, infos, local, n)
    requires var key := ScreenKey(o, n);
      after.screens == g.screens[key := T.TopologyScreen(key, CellFor(st, e, o, infos, local, n), infos[n], local)]
    ensures OwnPlaced(st, e, o, infos, local, n + 1, after)
  {
    hide CellFor, Accepted;
  }

  lemma RememberedStep(before: seq<ScreenLayout>, sofar: seq<ScreenLayout>, o: string, n: nat, cell: GridPosition)
    requires OthersRemembered(before, sofar, o, n)
    ensures OthersRemembered(before, UpsertLayout(sofar, ScreenLayout(ScreenKey(o, n), cell)), o, n + 1)
  {
    forall k: ScreenKey | k.ownerId != o || n + 1 <= k.screenIndex
      ensures FindLayout(UpsertLayout(sofar, ScreenLayout(ScreenKey(o, n), cell)), k) == FindLayout(before, k)
    {
      FindAfterUpsert(sofar, ScreenLayout(ScreenKey(o, n), cell), k);
    }
  }

  /**
   * Registering screens of an owner with none in the grid: screen i gets in exactly
   * when it is drawable and is not the refused anchor; it gets CellFor, a cell that
   * was free; every screen already there stays as it was.
   */
  lemma {:induction false} PlacementIs(st: Store, e: Endpoint, o: string, infos: seq<ScreenInfo>, local: bool, n: nat)
    requires n <= |infos| && OwnerAbsent(st.grid, o)
    ensures PlacedSoFar(st, e, o, infos, local, n)
    decreases n
  {
    hide PlaceFirst, PlacedSoFar;
    if 0 < n {
      var i := n - 1;
      PlacementIs(st, e, o, infos, local, i);
      PlacementStep(st, e, o, infos, local, i);
      assert n == i + 1;
    } else {
      PlacementStart(st, e, o, infos, local);
    }
  }

  lemma PlacementStart(st: Store, e: Endpoint, o: string, infos: seq<ScreenInfo>, local: bool)
    requires OwnerAbsent(st.grid, o)
    ensures PlacedSoFar(st, e, o, infos, local, 0)
  {
  }

  lemma StepFacts(st: Store, e: Endpoint, o: string, infos: seq<ScreenInfo>, local: bool, n: nat)
    requires n < |infos| && OwnerAbsent(st.grid, o)
    ensures var p, q := PlaceFirst(st, e, o, infos, local, n), PlaceFirst(st, e, o, infos, local, n + 1);
            var key, cell := ScreenKey(o, n), CellFor(st, e, o, infos, local, n);
            if Accepted(st, e, o, infos, local, n) then
              && q.store.grid.screens == p.store.grid.screens[key := T.TopologyScreen(key, cell, infos[n], local)]
              && q.store.grid.cells == p.store.grid.cells[cell := key]
            else q.store == p.store
  {
    PlacementIs(st, e, o, infos, local, n);
    StepIs(st, e, o, infos, local, n);
  }

  /** A step only ever adds to the grid. */
  lemma PlaceScreenGrows(p: Placement, e: Endpoint, o: string, infos: seq<ScreenInfo>, i: nat, local: bool)
    requires i < |infos|
    ensures var g, r := p.store.grid, PlaceScreen(p, e, o, infos, i, local).store.grid;
            && g.cells.Keys <= r.cells.Keys
            && forall k :: k in g.screens ==> k in r.screens && r.screens[k] == g.screens[k]
  {
    hide ChooseCell, IsAnchor, Emplace, UpsertLayout;
  }

  /** A screen, once placed, keeps its cell for the rest of the registration. */
  lemma {:induction false} PlacementGrows(st: Store, e: Endpoint, o: string, infos: seq<ScreenInfo>, local: bool,
                                          i: nat, n: nat)
    requires i <= n <= |infos|
    ensures var p := PlaceFirst(st, e, o, infos, local, i).store.grid;
            var q := PlaceFirst(st, e, o, infos, local, n).store.grid;
            && p.cells.Keys <= q.cells.Keys
            && forall k :: k in p.screens ==> k in q.screens && q.screens[k] == p.screens[k]
    decreases n
  {
    hide PlaceScreen;
    if i < n {
      PlacementGrows(st, e, o, infos, local, i, n - 1);
      PlaceScreenGrows(PlaceFirst(st, e, o, infos, local, n - 1), e, o, infos, n - 1, local);
    }
  }

  /** The registration as a whole leaves an accepted screen at the cell it was meant for. */
  lemma FinalScreen(st: Store, e: Endpoint, o: string, infos: seq<ScreenInfo>, local: bool, i: nat)
    requires i < |infos| && OwnerAbsent(st.grid, o) && Accepted(st, e, o, infos, local, i)
    ensures var r := Register(st, e, o, infos, local).grid;
            var key := ScreenKey(o, i);
            && key in r.screens
            && r.screens[key] == T.TopologyScreen(key, CellFor(st, e, o, infos, local, i), infos[i], local)
  {
    PlacementIs(st, e, o, infos, local, |infos|);
  }

  /** The search for a free cell ends within as many steps as there are screens, at the least x free on row 0. */
  lemma FreeCellIsLeast(g: T.Grid, startX: int)
    requires T.Inverse(g)
    ensures var c := FreeCellFrom(g, startX);
            && c.y == 0 && startX <= c.x <= startX + |g.screens|
            && (forall k :: k in g.screens ==> g.screens[k].cell != c)
            && (forall x :: startX <= x < c.x ==>
                  GridPosition(x, 0) in g.cells && g.screens[g.cells[GridPosition(x, 0)]].cell == GridPosition(x, 0))
  {
    T.AsManyCellsAsScreens(g);
    assert |g.cells| == |g.cells.Keys|;
    var c := FreeCellFrom(g, startX);
    forall k | k in g.screens ensures g.screens[k].cell != c {
      assert g.screens[k].cell in g.cells;
    }
  }

  // ----- The rules of placement -----

  /** The first screen marked primary, or, if none is, the first of all. */
  predicate IsPrimary(infos: seq<ScreenInfo>, i: nat)
    requires i < |infos|
  {
    (forall j :: 0 <= j < i ==> !infos[j].primary)
    && (infos[i].primary || (i == 0 && forall j :: 0 <= j < |infos| ==> !infos[j].primary))
  }

  lemma PrimaryIndexIs(infos: seq<ScreenInfo>, i: nat)
    requires i < |infos|
    ensures i == PrimaryIndex(infos) <==> IsPrimary(infos, i)
  {
  }

  /** The leftmost free cell of row 0 from (1,0) on. */
  ghost predicate NextToTheRight(g: T.Grid, cell: GridPosition) {
    && cell.y == 0 && 1 <= cell.x
    && !T.HasCell(g, cell.x, 0) && forall x :: 1 <= x < cell.x ==> T.HasCell(g, x, 0)
  }

  /**
   * Which screens get in, and where, the grid being g when it is their turn. Only
   * drawable ones do, and not the host's primary when it is not remembered and the origin
   * is taken. A remembered cell is used if it is free. Else the host's primary goes to the
   * origin unless it is remembered, and all others to the right.
   */
  ghost predicate PlacedByTheRules(st: Store, g: T.Grid, r: T.Grid, key: ScreenKey, drawable: bool, hostPrimary: bool) {
    var remembered := FindLayout(st.config.screens, key);
    && (key in r.screens <==> drawable && !(hostPrimary && remembered.None? && T.HasCell(g, 0, 0)))
    && (key in r.screens ==>
          var cell := r.screens[key].cell;
          && (remembered.Some? && !T.HasCell(g, remembered.value.x, remembered.value.y) ==> cell == remembered.value)
          && (remembered.Some? && T.HasCell(g, remembered.value.x, remembered.value.y) ==> NextToTheRight(g, cell))
          && (remembered.None? && hostPrimary ==> cell == GridPosition(0, 0))
          && (remembered.None? && !hostPrimary ==> NextToTheRight(g, cell)))
  }

  lemma RegisteredByTheRules(st: Store, e: Endpoint, o: string, infos: seq<ScreenInfo>, local: bool, i: nat)
    requires i < |infos| && StoreOk(st) && OwnerAbsent(st.grid, o)
    ensures PlacedByTheRules(st, PlaceFirst(st, e, o, infos, local, i).store.grid, Register(st, e, o, infos, local).grid,
                             ScreenKey(o, i), 0 < infos[i].width && 0 < infos[i].height, local && IsPrimary(infos, i))
  {
    hide PlaceFirst, StoreOk, OwnerAbsent, FindLayout, IsPrimary, T.HasCell, OthersKept, OthersRemembered;
    var g := PlaceFirst(st, e, o, infos, local, i).store.grid;
    PlaceFirstKeeps(st, e, o, infos, local, i);
    GridIsOk(PlaceFirst(st, e, o, infos, local, i).store);
    T.CellsAreTaken(g);
    PrimaryIndexIs(infos, i);
    PlacementIs(st, e, o, infos, local, |infos|);
    assert ScreenKey(o, i) in Register(st, e, o, infos, local).grid.screens <==> Accepted(st, e, o, infos, local, i);
  }

  lemma GridIsOk(st: Store)
    requires StoreOk(st)
    ensures T.Inverse(st.grid)
  {
  }

  // ----- A remote peer -----

  /**
   * A remote owner with no screen in the grid gets every drawable screen it reports
   * registered, and only those: each on a cell that was free, no two on the same
   * cell, no other owner's screen disturbed, and all of it remembered.
   */
  lemma RemotePeerIsPlaced(st: Store, e: Endpoint, o: string, infos: seq<ScreenInfo>)
    requires StoreOk(st) && OwnerAbsent(st.grid, o)
    ensures var r := Register(st, e, o, infos, false);
            && StoreOk(r)
            && OthersKept(st.grid, r.grid, o)
            && (forall i :: 0 <= i < |infos| ==> (ScreenKey(o, i) in r.grid.screens <==> ValidRect(infos[i])))
            && (forall i :: 0 <= i < |infos| && ValidRect(infos[i]) ==>
                  var cell := CellFor(st, e, o, infos, false, i);
                  && r.grid.screens[ScreenKey(o, i)] == T.TopologyScreen(ScreenKey(o, i), cell, infos[i], false)
                  && cell !in PlaceFirst(st, e, o, infos, false, i).store.grid.cells
                  && FindLayout(r.config.screens, ScreenKey(o, i)) == Some(cell))
            && (forall i, j :: 0 <= i < j < |infos| && ValidRect(infos[i]) && ValidRect(infos[j]) ==>
                  CellFor(st, e, o, infos, false, i) != CellFor(st, e, o, infos, false, j))
  {
    RegisterKeeps(st, e, o, infos, false);
    PlacementIs(st, e, o, infos, false, |infos|);
    var r := Register(st, e, o, infos, false);
    forall i, j | 0 <= i < j < |infos| && ValidRect(infos[i]) && ValidRect(infos[j])
      ensures CellFor(st, e, o, infos, false, i) != CellFor(st, e, o, infos, false, j)
    {
      T.CellsDistinct(r.grid, ScreenKey(o, i), ScreenKey(o, j));
    }
  }

  // ----- The local screens at startup -----

  /** An earlier drawable local screen is remembered at the origin. */
  predicate OriginRemembered(config: AppConfig, o: string, infos: seq<ScreenInfo>, n: nat)
    requires n <= |infos|
  {
    exists j :: 0 <= j < n && ValidRect(infos[j])
                && FindLayout(config.screens, ScreenKey(o, j)) == Some(GridPosition(0, 0))
  }

  /** Before the anchor's turn the origin can only be taken by a screen remembered there. */
  lemma {:induction false} OriginTakenBeforeAnchor(config: AppConfig, e: Endpoint, o: string,
                                                   infos: seq<ScreenInfo>, n: nat)
    requires n <= |infos| && n <= PrimaryIndex(infos)
    ensures GridPosition(0, 0) in PlaceFirst(EmptyStore(config), e, o, infos, true, n).store.grid.cells
        ==> OriginRemembered(config, o, infos, n)
    decreases n
  {
    hide PlaceScreen;
    if 0 < n {
      OriginTakenBeforeAnchor(config, e, o, infos, n - 1);
      StepFacts(EmptyStore(config), e, o, infos, true, n - 1);
    }
  }

  lemma OriginRememberedIsTaken(config: AppConfig, e: Endpoint, o: string, infos: seq<ScreenInfo>, n: nat)
    requires n <= |infos| && OriginRemembered(config, o, infos, n)
    ensures GridPosition(0, 0) in PlaceFirst(EmptyStore(config), e, o, infos, true, n).store.grid.cells
  {
    hide PlaceFirst, FindLayout;
    var j :| 0 <= j < n && ValidRect(infos[j])
             && FindLayout(config.screens, ScreenKey(o, j)) == Some(GridPosition(0, 0));
    RememberedCellGetsTaken(EmptyStore(config), e, o, infos, j, GridPosition(0, 0));
    PlacementGrows(EmptyStore(config), e, o, infos, true, j + 1, n);
  }

  lemma RememberedCellGetsTaken(st: Store, e: Endpoint, o: string, infos: seq<ScreenInfo>, j: nat, cell: GridPosition)
    requires j < |infos| && ValidRect(infos[j]) && OwnerAbsent(st.grid, o)
    requires FindLayout(st.config.screens, ScreenKey(o, j)) == Some(cell)
    ensures cell in PlaceFirst(st, e, o, infos, true, j + 1).store.grid.cells
  {
    PlacementIs(st, e, o, infos, true, j);
    StepIs(st, e, o, infos, true, j);
    PlacementGrows(st, e, o, infos, true, j, j + 1);
  }

  /**
   * At startup screen i of the host is registered exactly when it is drawable and it
   * is not an unremembered anchor whose origin an earlier screen is remembered at.
   */
  lemma LocalScreenRegistered(config: AppConfig, e: Endpoint, o: string, infos: seq<ScreenInfo>, i: nat)
    requires i < |infos|
    ensures ScreenKey(o, i) in Register(EmptyStore(config), e, o, infos, true).grid.screens <==>
              && ValidRect(infos[i])
              && !(&& i == PrimaryIndex(infos)
                   && FindLayout(config.screens, ScreenKey(o, i)).None?
                   && OriginRemembered(config, o, infos, i))
  {
    PlacementIs(EmptyStore(config), e, o, infos, true, |infos|);
    if i == PrimaryIndex(infos) {
      OriginTakenBeforeAnchor(config, e, o, infos, i);
      if OriginRemembered(config, o, infos, i) {
        OriginRememberedIsTaken(config, e, o, infos, i);
      }
    }
  }

  /** A host whose second monitor became primary while the first is still remembered at the origin loses it. */
  lemma RefusedPrimaryExample()
    ensures var layout := [ScreenLayout(ScreenKey("host", 0), GridPosition(0, 0))];
            var infos := [ScreenInfo(0, 0, 10, 10, 72, "a", false), ScreenInfo(10, 0, 10, 10, 72, "b", true)];
            ScreenKey("host", 1) !in Register(EmptyStore(AppConfig("host", layout, [])), 0, "host", infos, true).grid.screens
  {
    var layout := [ScreenLayout(ScreenKey("host", 0), GridPosition(0, 0))];
    var infos := [ScreenInfo(0, 0, 10, 10, 72, "a", false), ScreenInfo(10, 0, 10, 10, 72, "b", true)];
    LayoutIndexUnique(layout, ScreenKey("host", 0), 0);
    LayoutIndexUnique(layout, ScreenKey("host", 1), 1);
    assert FindLayout(layout, ScreenKey("host", 0)) == Some(GridPosition(0, 0));
    LocalScreenRegistered(AppConfig("host", layout, []), 0, "host", infos, 1);
  }

  /** Startup registers some local screen exactly when some reported one is drawable. */
  lemma StartupRegistersSome(config: AppConfig, e: Endpoint, o: string, infos: seq<ScreenInfo>)
    ensures Register(EmptyStore(config), e, o, infos, true).grid.screens.Keys != {} <==>
            exists i :: 0 <= i < |infos| && ValidRect(infos[i])
  {
    var r := Register(EmptyStore(config), e, o, infos, true);
    PlacementIs(EmptyStore(config), e, o, infos, true, |infos|);
    if k :| k in r.grid.screens {
      assert k == ScreenKey(o, k.screenIndex);
      assert Accepted(EmptyStore(config), e, o, infos, true, k.screenIndex);
    }
    forall i | 0 <= i < |infos| && ValidRect(infos[i]) ensures r.grid.screens.Keys != {} {
      LocalScreenRegistered(config, e, o, infos, i);
      if OriginRemembered(config, o, infos, i) {
        var j :| 0 <= j < i && ValidRect(infos[j])
                 && FindLayout(config.screens, ScreenKey(o, j)) == Some(GridPosition(0, 0));
        LocalScreenRegistered(config, e, o, infos, j);
        assert ScreenKey(o, i) in r.grid.screens || ScreenKey(o, j) in r.grid.screens;
      } else {
        assert ScreenKey(o, i) in r.grid.screens;
      }
    }
  }

  // ----- The default layout has no gaps -----

  /** The cells taken are (1,0) to (m,0), and perhaps the origin. */
  ghost predicate IsRow(cells: set<GridPosition>, origin: bool, m: nat) {
    forall c :: c in cells <==> c.y == 0 && (1 <= c.x <= m || (origin && c.x == 0))
  }

  lemma FirstFreeInRow(cells: set<GridPosition>, origin: bool, m: nat)
    requires IsRow(cells, origin, m)
    ensures FirstFree(cells, 1) == m + 1
  {
    assert forall x :: 1 <= x <= m ==> GridPosition(x, 0) in cells;
    assert GridPosition(m + 1, 0) !in cells;
  }

  lemma RowGrows(cells: set<GridPosition>, origin: bool, m: nat)
    requires IsRow(cells, origin, m)
    ensures IsRow(cells + {GridPosition(m + 1, 0)}, origin, m + 1)
    ensures IsRow(cells + {GridPosition(0, 0)}, true, m)
    ensures !origin ==> GridPosition(0, 0) !in cells
  {
  }

  /** Screen i is the one the host anchors at the origin. */
  predicate AnchorsAt(infos: seq<ScreenInfo>, local: bool, i: nat) {
    local && i == PrimaryIndex(infos)
  }

  /** How many of the first n screens get packed to the right. */
  function Packed(infos: seq<ScreenInfo>, local: bool, n: nat): nat
    requires n <= |infos|
  {
    if n == 0 then 0
    else Packed(infos, local, n - 1) + (if ValidRect(infos[n - 1]) && !AnchorsAt(infos, local, n - 1) then 1 else 0)
  }

  /** Whether the anchor is among the first n screens and drawable. */
  predicate AnchorPlaced(infos: seq<ScreenInfo>, local: bool, n: nat)
    requires n <= |infos|
  {
    0 < n && (AnchorPlaced(infos, local, n - 1) || (ValidRect(infos[n - 1]) && AnchorsAt(infos, local, n - 1)))
  }

  ghost predicate NothingRemembered(st: Store, o: string, n: nat) {
    forall i :: 0 <= i < n ==> FindLayout(st.config.screens, ScreenKey(o, i)).None?
  }

  ghost predicate RowAfter(st: Store, e: Endpoint, o: string, infos: seq<ScreenInfo>, local: bool,
                           origin: bool, m: nat, n: nat)
    requires n <= |infos|
  {
    IsRow(PlaceFirst(st, e, o, infos, local, n).store.grid.cells.Keys,
          origin || AnchorPlaced(infos, local, n), m + Packed(infos, local, n))
  }

  /** Where screen i goes while the row is packed. */
  function PackedCell(infos: seq<ScreenInfo>, local: bool, m: nat, i: nat): GridPosition
    requires i < |infos|
  {
    if AnchorsAt(infos, local, i) then GridPosition(0, 0) else GridPosition(m + Packed(infos, local, i) + 1, 0)
  }

  lemma {:induction false} AnchorComesOnce(infos: seq<ScreenInfo>, local: bool, i: nat)
    requires i <= |infos| && (local ==> i <= PrimaryIndex(infos))
    ensures !AnchorPlaced(infos, local, i)
  {
    if 0 < i {
      AnchorComesOnce(infos, local, i - 1);
    }
  }

  lemma NextPackedCell(st: Store, e: Endpoint, o: string, infos: seq<ScreenInfo>, local: bool,
                       origin: bool, m: nat, i: nat)
    requires i < |infos| && (local ==> !origin) && NothingRemembered(st, o, |infos|)
    requires RowAfter(st, e, o, infos, local, origin, m, i)
    ensures CellFor(st, e, o, infos, local, i) == PackedCell(infos, local, m, i)
    ensures Accepted(st, e, o, infos, local, i) <==> ValidRect(infos[i])
  {
    var cells := PlaceFirst(st, e, o, infos, local, i).store.grid.cells.Keys;
    FirstFreeInRow(cells, origin || AnchorPlaced(infos, local, i), m + Packed(infos, local, i));
    RowGrows(cells, origin || AnchorPlaced(infos, local, i), m + Packed(infos, local, i));
    if AnchorsAt(infos, local, i) {
      AnchorComesOnce(infos, local, i);
    }
  }

  lemma PackOne(st: Store, e: Endpoint, o: string, infos: seq<ScreenInfo>, local: bool, origin: bool, m: nat, i: nat)
    requires i < |infos| && OwnerAbsent(st.grid, o) && (local ==> !origin) && NothingRemembered(st, o, |infos|)
    requires RowAfter(st, e, o, infos, local, origin, m, i)
    ensures RowAfter(st, e, o, infos, local, origin, m, i + 1)
  {
    hide PlaceFirst, CellFor, Accepted, IsRow, OwnerAbsent, NothingRemembered, AnchorsAt;
    NextPackedCell(st, e, o, infos, local, origin, m, i);
    StepCells(st, e, o, infos, local, i);
    var cells := PlaceFirst(st, e, o, infos, local, i).store.grid.cells.Keys;
    RowGrows(cells, origin || AnchorPlaced(infos, local, i), m + Packed(infos, local, i));
    assert cells + {} == cells;
  }

  lemma StepCells(st: Store, e: Endpoint, o: string, infos: seq<ScreenInfo>, local: bool, n: nat)
    requires n < |infos| && OwnerAbsent(st.grid, o)
    ensures PlaceFirst(st, e, o, infos, local, n + 1).store.grid.cells.Keys
         == PlaceFirst(st, e, o, infos, local, n).store.grid.cells.Keys
            + (if Accepted(st, e, o, infos, local, n) then {CellFor(st, e, o, infos, local, n)} else {})
  {
    StepFacts(st, e, o, infos, local, n);
  }

  /** With nothing remembered about the owner, its first n screens extend the packed row without gaps. */
  lemma {:induction false} RowStaysPacked(st: Store, e: Endpoint, o: string, infos: seq<ScreenInfo>, local: bool,
                                          origin: bool, m: nat, n: nat)
    requires n <= |infos| && OwnerAbsent(st.grid, o) && (local ==> !origin) && NothingRemembered(st, o, |infos|)
    requires IsRow(st.grid.cells.Keys, origin, m)
    ensures RowAfter(st, e, o, infos, local, origin, m, n)
    decreases n
  {
    if 0 < n {
      var i := n - 1;
      RowStaysPacked(st, e, o, infos, local, origin, m, i);
      PackOne(st, e, o, infos, local, origin, m, i);
      assert n == i + 1;
    } else {
      assert PlaceFirst(st, e, o, infos, local, 0).store == st;
    }
  }

  /**
   * The default layout: with nothing remembered about the owner and the grid packed
   * so far, the local anchor takes the origin and every other drawable screen the next
   * place of the row, in the order reported, leaving no gap.
   */
  lemma DefaultLayoutIsPacked(st: Store, e: Endpoint, o: string, infos: seq<ScreenInfo>, local: bool,
                              origin: bool, m: nat, i: nat)
    requires i < |infos| && ValidRect(infos[i]) && OwnerAbsent(st.grid, o) && (local ==> !origin)
    requires NothingRemembered(st, o, |infos|) && IsRow(st.grid.cells.Keys, origin, m)
    ensures var r := Register(st, e, o, infos, local).grid;
            && IsRow(r.cells.Keys, origin || AnchorPlaced(infos, local, |infos|), m + Packed(infos, local, |infos|))
            && ScreenKey(o, i) in r.screens
            && r.screens[ScreenKey(o, i)].cell == PackedCell(infos, local, m, i)
  {
    RowStaysPacked(st, e, o, infos, local, origin, m, |infos|);
    PackedScreenStays(st, e, o, infos, local, origin, m, i);
  }

  lemma PackedScreenStays(st: Store, e: Endpoint, o: string, infos: seq<ScreenInfo>, local: bool,
                          origin: bool, m: nat, i: nat)
    requires i < |infos| && ValidRect(infos[i]) && OwnerAbsent(st.grid, o) && (local ==> !origin)
    requires NothingRemembered(st, o, |infos|) && IsRow(st.grid.cells.Keys, origin, m)
    ensures var r := Register(st, e, o, infos, local).grid;
            ScreenKey(o, i) in r.screens && r.screens[ScreenKey(o, i)].cell == PackedCell(infos, local, m, i)
  {
    RowStaysPacked(st, e, o, infos, local, origin, m, i);
    NextPackedCell(st, e, o, infos, local, origin, m, i);
    FinalScreen(st, e, o, infos, local, i);
  }

  // ----- Reconnecting -----

  /** Nodes are only added, of this endpoint and owner, and the grid grows only with them. */
  ghost predicate GrewBy(before: Store, after: Store, e: Endpoint, o: string, local: bool) {
    && (forall m :: m in before.nodes ==> m in after.nodes)
    && (forall m :: m in after.nodes ==>
          || m in before.nodes
          || (m.screen.endpoint == e && m.screen.key.ownerId == o && m.screen.local == local))
    && (|| after.grid == before.grid
        || exists m :: m in after.nodes && m.screen.endpoint == e && m.screen.key.ownerId == o)
  }

  lemma WithScreenGrew(st: Store, e: Endpoint, key: ScreenKey, cell: GridPosition, info: ScreenInfo, local: bool)
    ensures GrewBy(st, WithScreen(st, e, key, cell, info, local), e, key.ownerId, local)
  {
    hide Emplace, UpsertLayout;
    if T.AddError(st.grid, T.TopologyScreen(key, cell, info, local)).None? {
      var node := Node(st.nextId, VirtualScreen(e, key, cell, local, info));
      forall m ensures m in Emplace(st.nodes, node) <==> m == node || m in st.nodes {
        EmplaceMembers(st.nodes, node, m);
      }
      assert node in Emplace(st.nodes, node);
    }
  }

  lemma GrewTwice(a: Store, b: Store, c: Store, e: Endpoint, o: string, local: bool)
    requires GrewBy(a, b, e, o, local) && GrewBy(b, c, e, o, local)
    ensures GrewBy(a, c, e, o, local)
  {
  }

  lemma {:induction false} NodesGrow(st: Store, e: Endpoint, o: string, infos: seq<ScreenInfo>, local: bool, n: nat)
    requires n <= |infos|
    ensures GrewBy(st, PlaceFirst(st, e, o, infos, local, n).store, e, o, local)
    decreases n
  {
    hide GrewBy, WithScreen, ChooseCell, IsAnchor;
    if 0 < n {
      NodesGrow(st, e, o, infos, local, n - 1);
      var p := PlaceFirst(st, e, o, infos, local, n - 1);
      var key := ScreenKey(o, n - 1);
      var cell := ChooseCell(p, key, IsAnchor(infos, n - 1, local));
      WithScreenGrew(p.store, e, key, cell, infos[n - 1], local);
      GrewTwice(st, p.store, PlaceFirst(st, e, o, infos, local, n).store, e, o, local);
    } else {
      NothingGrew(st, e, o, local);
    }
  }

  lemma NothingGrew(st: Store, e: Endpoint, o: string, local: bool)
    ensures GrewBy(st, st, e, o, local)
  {
  }

  /** Removing a freshly registered peer restores the grid and keeps what was remembered. */
  lemma RemoveUndoesRegister(st: Store, e: Endpoint, o: string, infos: seq<ScreenInfo>)
    requires StoreOk(st) && OwnerAbsent(st.grid, o) && forall n :: n in st.nodes ==> n.screen.endpoint != e
    ensures var r := Remove(Register(st, e, o, infos, false), e);
            r.grid == st.grid && r.config == Register(st, e, o, infos, false).config
  {
    hide PlaceFirst, OwnPlaced;
    NodesGrow(st, e, o, infos, false, |infos|);
    PlacementIs(st, e, o, infos, false, |infos|);
    RegisterKeeps(st, e, o, infos, false);
    var p := Register(st, e, o, infos, false);
    if p.grid == st.grid {
      RemoveAbsentOwners(st.grid, o, OwnersOf(p.nodes, e));
    } else {
      assert OwnersOf(p.nodes, e) == {o};
      GridWithoutOwner(st.grid, p.grid, o);
    }
  }

  lemma RemoveAbsentOwners(g: T.Grid, o: string, owners: set<string>)
    requires T.Inverse(g) && OwnerAbsent(g, o) && owners <= {o}
    ensures T.RemoveOwners(g, owners) == g
  {
    var r := T.RemoveOwners(g, owners);
    assert r.screens == g.screens;
    assert r.cells == g.cells;
  }

  lemma GridWithoutOwner(g: T.Grid, after: T.Grid, o: string)
    requires T.Inverse(g) && T.Inverse(after) && OwnerAbsent(g, o) && OthersKept(g, after, o)
    ensures T.RemoveOwners(after, {o}) == g
  {
    var r := T.RemoveOwners(after, {o});
    assert r.screens == g.screens;
    T.RemoveOwnersKeepsInverse(after, {o});
    forall c ensures c in r.cells <==> c in g.cells
             ensures c in r.cells ==> r.cells[c] == g.cells[c] {
      if c in r.cells {
        assert g.screens[r.cells[c]].cell == c;
      }
      if c in g.cells {
        assert r.screens[g.cells[c]].cell == c;
      }
    }
  }

  /**
   * Layout stability: a remote peer that registers, goes away and registers the same
   * screens again, even from another endpoint, gets the same grid and the same
   * remembered layout.
   */
  lemma ReconnectRestoresLayout(st: Store, e: Endpoint, e': Endpoint, o: string, infos: seq<ScreenInfo>)
    requires StoreOk(st) && OwnerAbsent(st.grid, o) && forall n :: n in st.nodes ==> n.screen.endpoint != e
    ensures var once := Register(st, e, o, infos, false);
            var again := Register(Remove(once, e), e', o, infos, false);
            again.grid == once.grid && again.config == once.config
  {
    RemoveUndoesRegister(st, e, o, infos);
    var once := Register(st, e, o, infos, false);
    ReplayPlacement(st, Remove(once, e), e, e', o, infos, |infos|);
  }

  /** Replaying a registration against the layout it left behind takes every step the same way. */
  lemma {:induction false} ReplayPlacement(st: Store, back: Store, e: Endpoint, e': Endpoint, o: string,
                                           infos: seq<ScreenInfo>, n: nat)
    requires n <= |infos| && StoreOk(st) && OwnerAbsent(st.grid, o)
    requires back.grid == st.grid && back.config == Register(st, e, o, infos, false).config
    ensures var p, q := PlaceFirst(st, e, o, infos, false, n).store, PlaceFirst(back, e', o, infos, false, n).store;
            q.grid == p.grid && q.config == back.config
    decreases n
  {
    hide PlaceScreen, ChooseCell, StoreOk, OwnerAbsent, FindLayout;
    if 0 < n {
      ReplayPlacement(st, back, e, e', o, infos, n - 1);
      FirstRunCell(st, e, o, infos, n - 1);
      var p := PlaceFirst(st, e, o, infos, false, n - 1);
      var q := PlaceFirst(back, e', o, infos, false, n - 1);
      ReplayOne(p, q, e, e', o, infos, n - 1);
    }
  }

  /** The cell chosen for screen i the first time was free, and is what stays remembered. */
  lemma FirstRunCell(st: Store, e: Endpoint, o: string, infos: seq<ScreenInfo>, i: nat)
    requires i < |infos| && StoreOk(st) && OwnerAbsent(st.grid, o)
    ensures var p := PlaceFirst(st, e, o, infos, false, i);
            var cell := ChooseCell(p, ScreenKey(o, i), false);
            && cell !in p.store.grid.cells
            && (ValidRect(infos[i]) ==>
                  FindLayout(Register(st, e, o, infos, false).config.screens, ScreenKey(o, i)) == Some(cell))
  {
    PlacementIs(st, e, o, infos, false, i);
    ChoiceIsCellFor(st, e, o, infos, false, i);
    RegisterKeeps(st, e, o, infos, false);
    PlacementIs(st, e, o, infos, false, |infos|);
    if ValidRect(infos[i]) {
      assert Accepted(st, e, o, infos, false, i);
      assert ScreenKey(o, i) in Register(st, e, o, infos, false).grid.screens;
    }
  }

  lemma ReplayOne(p: Placement, q: Placement, e: Endpoint, e': Endpoint, o: string, infos: seq<ScreenInfo>, i: nat)
    requires i < |infos| && q.store.grid == p.store.grid
    requires var cell := ChooseCell(p, ScreenKey(o, i), false);
      cell !in p.store.grid.cells &&
      (ValidRect(infos[i]) ==> FindLayout(q.store.config.screens, ScreenKey(o, i)) == Some(cell))
    ensures var p', q' := PlaceScreen(p, e, o, infos, i, false).store, PlaceScreen(q, e', o, infos, i, false).store;
            q'.grid == p'.grid && q'.config == q.store.config
  {
    if ValidRect(infos[i]) {
      UpsertOfKnown(q.store.config.screens, ScreenLayout(ScreenKey(o, i), ChooseCell(p, ScreenKey(o, i), false)));
    }
  }
}
