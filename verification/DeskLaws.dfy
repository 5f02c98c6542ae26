/** What the host's callbacks keep, and which nodes, queues and owners they leave. */
module DeskLaws {
  import opened Core
  import opened Config
  import opened Screens
  import opened StoreLaws
  import opened PlacementLaws
  import opened Input
  import opened InputLaws
  import opened PointerLaws
  import opened Server

  // ----- Dropping an endpoint's screens -----

  lemma ClearActiveKeeps(d: Desk)
    requires StoreOk(d.store) && d.history.suppressed <= d.history.warps
    ensures DeskOk(ClearActive(d)) && !RemoteActive(ClearActive(d))
  {
  }

  /** After dropping, the active pointer is null or at a node of another endpoint, still live. */
  lemma DropKeeps(d: Desk, e: Endpoint)
    requires DeskOk(d)
    ensures var r := DropScreens(d, e);
            && DeskOk(r)
            && r.store == Remove(d.store, e)
            && r.channels == d.channels && r.history == d.history
            && (CursorOk(d) ==> CursorOk(r))
            && (if ActiveErased(d, e) then r.active.None? else r.active == d.active)
  {
    hide TellMode;
    RemoveKeepsOk(d.store, e);
    if ActiveErased(d, e) {
      ClearActiveKeeps(d.(store := Remove(d.store, e)));
      ClearActiveIs(d.(store := Remove(d.store, e)));
    }
  }

  lemma ClearActiveIs(d: Desk)
    ensures var r := ClearActive(d);
            r.active.None? && r.store == d.store && r.channels == d.channels && r.history == d.history
  {
  }

  ghost predicate HasLocal(nodes: seq<Node>) {
    exists n :: n in nodes && n.screen.local
  }

  /** Making sure of a local active screen, when none is preferred, keeps everything and never loses the pointer. */
  lemma EnsureKeeps(d: Desk)
    requires DeskOk(d)
    ensures var r := EnsureActiveLocal(d, false, false);
            && DeskOk(r) && r.store == d.store && r.channels == d.channels && r.history == d.history
            && (CursorOk(d) ==> CursorOk(r))
            && (HasLocal(d.store.nodes) ==> r.active.Some?)
  {
    hide TellMode, FirstLocal;
    if d.active.None? {
      ActivateFirstLocalKeeps(d);
    }
  }

  // ----- A remote report -----

  /** Every node after a report was there before and not of this endpoint, or is one of the reported. */
  ghost predicate NodesReplaced(before: seq<Node>, after: seq<Node>, e: Endpoint, o: string, local: bool) {
    && (forall n :: n in before && n.screen.endpoint != e ==> n in after)
    && (forall n :: n in after ==>
          || (n in before && n.screen.endpoint != e)
          || (n.screen.endpoint == e && n.screen.key.ownerId == o && n.screen.local == local))
  }

  lemma ReplaceKeeps(d: Desk, e: Endpoint, o: string, infos: seq<ScreenInfo>)
    requires DeskOk(d)
    ensures var r := ReplaceScreens(d, e, o, infos, false, false);
            && DeskOk(r)
            && r.store == Register(Remove(d.store, e), e, o, infos, false)
            && r.channels == d.channels && r.history == d.history
            && NodesReplaced(d.store.nodes, r.store.nodes, e, o, false)
            && (CursorOk(d) ==> CursorOk(r))
            && (HasLocal(r.store.nodes) ==> r.active.Some?)
  {
    hide EnsureActiveLocal, PlaceFirst, StoreOk, Without;
    DropKeeps(d, e);
    var dropped := DropScreens(d, e);
    RegisteredKeeps(dropped, e, o, infos, false);
    EnsureKeeps(dropped.(store := Register(dropped.store, e, o, infos, false)));
    NodesGrow(Remove(d.store, e), e, o, infos, false, |infos|);
    RemoveLeaves(d.store, e);
  }

  lemma RemoveLeaves(st: Store, e: Endpoint)
    ensures forall n :: n in Remove(st, e).nodes <==> n in st.nodes && n.screen.endpoint != e
  {
  }

  /** Registration under the router's feet: live nodes stay live. */
  lemma RegisteredKeeps(d: Desk, e: Endpoint, o: string, infos: seq<ScreenInfo>, local: bool)
    requires DeskOk(d)
    ensures var r := d.(store := Register(d.store, e, o, infos, local));
            DeskOk(r) && (CursorOk(d) ==> CursorOk(r))
  {
    hide PlaceFirst, StoreOk;
    RegisterKeeps(d.store, e, o, infos, local);
    NodesGrow(d.store, e, o, infos, local, |infos|);
  }

  // ----- Where the pointer is afterwards -----

  /** The active screen is one of the endpoint's. */
  predicate PointsAt(d: Desk, e: Endpoint) {
    d.active.Some? && d.active.value.screen.endpoint == e
  }

  /** The pointer has come home, and the OS cursor was not moved. */
  ghost predicate CameIn(d: Desk, r: Desk) {
    && Home(r)
    && (d.capture.Some? <==> r.capture.Some?)
    && (d.capture.Some? ==> r.capture.value.warps == d.capture.value.warps)
  }

  lemma DropIs(d: Desk, e: Endpoint)
    requires DeskOk(d)
    ensures var r := DropScreens(d, e);
            && r.store == Remove(d.store, e)
            && (if PointsAt(d, e) then
                  && r.active.None? && r.lastMouse.None? && r.pendingWarp.None?
                  && (d.capture.Some? <==> r.capture.Some?)
                  && (d.capture.Some? ==> r.capture.value.warps == d.capture.value.warps)
                else PointerRests(d, r))
  {
    RemoveLeaves(d.store, e);
  }

  lemma EnsureIs(d: Desk)
    ensures var r := EnsureActiveLocal(d, false, false);
            && r.store == d.store
            && (if d.active.Some? then r == d else CameIn(d, r))
  {
    hide FirstLocal;
    GoingHome(d);
  }

  /**
   * A remote report leaves the pointer where it is, on whichever screen, unless it was on
   * one of the screens replaced or nowhere: then it comes home to the first local screen,
   * if there is one, without moving the OS cursor.
   */
  lemma ReportLeavesPointer(d: Desk, e: Endpoint, o: string, infos: seq<ScreenInfo>)
    requires DeskOk(d)
    ensures var r := ReplaceScreens(d, e, o, infos, false, false);
            if d.active.Some? && !PointsAt(d, e) then PointerRests(d, r) else CameIn(d, r)
  {
    hide DeskOk, DropScreens, EnsureActiveLocal, Register, Home;
    DropIs(d, e);
    var dropped := DropScreens(d, e);
    EnsureIs(dropped.(store := Register(dropped.store, e, o, infos, false)));
  }

  /** The end of a session leaves the pointer where it is unless it was on one of its screens. */
  lemma CloseLeavesPointer(d: Desk, e: Endpoint)
    requires DeskOk(d)
    ensures var r := CloseEndpoint(d, e);
            if PointsAt(d, e) then CameIn(d, r) else PointerRests(d, r)
  {
    hide DropScreens, EnsureActiveLocal, Without;
    DropIs(d, e);
    ErasedIfPointedAt(d, e);
    EnsureIs(DropScreens(d, e));
  }

  lemma ErasedIfPointedAt(d: Desk, e: Endpoint)
    requires DeskOk(d)
    ensures ActiveErased(d, e) <==> PointsAt(d, e)
  {
    hide StoreOk, Without;
    RemoveLeaves(d.store, e);
  }

  // ----- The host's own report -----

  lemma {:induction false} FindsItself(nodes: seq<Node>, n: Node)
    requires KeysDistinct(nodes) && n in nodes
    ensures Find(nodes, n.screen.key) == Some(n)
  {
    if nodes[0] != n {
      assert nodes == [nodes[0]] + nodes[1..];
      KeysDistinctSplit(nodes, 1);
      FindsItself(nodes[1..], n);
    }
  }

  /** The OS cursor is moved exactly when some screen is active already and a local one is found to go to. */
  ghost predicate WouldWarp(d: Desk) {
    && d.active.Some? && FirstLocal(d.store.nodes).Some?
    && Find(d.store.nodes, FirstLocal(d.store.nodes).value.screen.key).value.screen.local
  }

  /**
   * Preferring the local primary asks for a warp to its first pixel whenever a screen is
   * active already, and for none at startup, when no screen is. The local screen is found
   * under its own key whenever no two nodes share one.
   */
  lemma PreferringWarpsWhen(d: Desk, warpOk: bool)
    requires d.capture.Some?
    ensures var r := EnsureActiveLocal(d, true, warpOk);
            && r.capture.Some?
            && r.capture.value.warps == d.capture.value.warps +
                 (if WouldWarp(d) then
                    [WarpCommand(FirstLocal(d.store.nodes).value.screen.key.screenIndex, 0, 0, warpOk)] else [])
    ensures KeysDistinct(d.store.nodes) ==>
              (WouldWarp(d) <==> d.active.Some? && exists n :: n in d.store.nodes && n.screen.local)
  {
    hide FirstPrimaryLocal, FirstOfLocals, KeysDistinct;
    if FirstLocal(d.store.nodes).Some? && KeysDistinct(d.store.nodes) {
      FindsItself(d.store.nodes, FirstLocal(d.store.nodes).value);
    }
  }

  /** Making sure of the preferred local screen keeps everything, and with distinct keys goes to that very screen. */
  lemma PreferredKeeps(d: Desk, warpOk: bool)
    requires DeskOk(d)
    ensures var r := EnsureActiveLocal(d, true, warpOk);
            && DeskOk(r) && AtMostOneDelivery(d, r) && r.store == d.store
            && (HasLocal(d.store.nodes) ==> r.active.Some?)
            && (KeysDistinct(d.store.nodes) && HasLocal(d.store.nodes) ==>
                  && r.active == FirstLocal(d.store.nodes)
                  && r.point == Some(ScreenPoint(r.active.value.screen.key, 0, 0))
                  && r.channels == d.channels && r.history.delivered == d.history.delivered)
            && (KeysDistinct(d.store.nodes) && CursorOk(d) ==> CursorOk(r))
  {
    hide FirstPrimaryLocal, FirstOfLocals, KeysDistinct, Enqueue, StoreOk;
    if d.active.None? {
      ActivateFirstLocalKeeps(d);
    } else if FirstLocal(d.store.nodes).Some? {
      var n := FirstLocal(d.store.nodes).value;
      SwitchKeeps(d, ScreenPoint(n.screen.key, 0, 0), warpOk);
      if KeysDistinct(d.store.nodes) {
        FindsItself(d.store.nodes, n);
      }
    }
  }

  /**
   * A report of the host's own screens, at startup or later: the invariant is kept, only
   * its own nodes are replaced, and with multimap and grid in agreement the pointer comes
   * home to the first local screen without queueing anything.
   */
  lemma HostReplaceKeeps(d: Desk, e: Endpoint, o: string, infos: seq<ScreenInfo>, warpOk: bool)
    requires DeskOk(d)
    ensures var r := ReplaceScreens(d, e, o, infos, true, warpOk);
            && DeskOk(r) && AtMostOneDelivery(d, r)
            && r.store == Register(Remove(d.store, e), e, o, infos, true)
            && NodesReplaced(d.store.nodes, r.store.nodes, e, o, true)
            && (HasLocal(r.store.nodes) ==> r.active.Some?)
            && (Synced(d.store) && OwnersApart(d.store.nodes, e) ==>
                  && Synced(r.store)
                  && (CursorOk(d) ==> CursorOk(r))
                  && (HasLocal(r.store.nodes) ==>
                        r.active == FirstLocal(r.store.nodes) && r.history.delivered == d.history.delivered))
  {
    hide EnsureActiveLocal, PlaceFirst, StoreOk, Without, OwnersApart, KeysDistinct, FirstLocal, HasLocal;
    DropKeeps(d, e);
    var dropped := DropScreens(d, e);
    RegisteredKeeps(dropped, e, o, infos, true);
    PreferredKeeps(dropped.(store := Register(dropped.store, e, o, infos, true)), warpOk);
    NodesGrow(Remove(d.store, e), e, o, infos, true, |infos|);
    RemoveLeaves(d.store, e);
    if Synced(d.store) && OwnersApart(d.store.nodes, e) {
      RemoveKeepsSynced(d.store, e);
      RegisterKeeps(Remove(d.store, e), e, o, infos, true);
    }
  }

  // ----- A session's end -----

  lemma CloseKeeps(d: Desk, e: Endpoint)
    requires DeskOk(d)
    ensures var r := CloseEndpoint(d, e);
            && DeskOk(r)
            && r.store == Remove(d.store, e).(owners := d.store.owners - {e})
            && r.channels == d.channels - {e} && r.history == d.history
            && (CursorOk(d) ==> CursorOk(r))
            && ((d.active.Some? || !HasLocal(d.store.nodes)) && HasLocal(r.store.nodes) ==> r.active.Some?)
  {
    hide EnsureActiveLocal, DropScreens, Without;
    DropKeeps(d, e);
    EnsureKeeps(DropScreens(d, e));
    RemoveLeaves(d.store, e);
    var removed := RemoveEndpoint(d, e);
    OwnersDoNotMatter(removed, removed.store.owners - {e}, removed.channels - {e});
  }

  lemma OwnersDoNotMatter(d: Desk, owners: map<Endpoint, string>, channels: map<Endpoint, Channel>)
    requires DeskOk(d)
    ensures var r := d.(channels := channels, store := d.store.(owners := owners));
            DeskOk(r) && (CursorOk(d) ==> CursorOk(r)) && (Synced(d.store) ==> Synced(r.store))
  {
  }

  // ----- Startup -----

  lemma BootKeeps(config: AppConfig, host: Endpoint, o: string, infos: seq<ScreenInfo>)
    ensures var r := Boot(config, host, o, infos);
            && DeskOk(r) && CursorOk(r) && Synced(r.store)
            && r.store == Register(EmptyStore(config), host, o, infos, true)
            && r.channels == map[] && r.history == History([], 0, 0)
            && (forall n :: n in r.store.nodes ==>
                  n.screen.endpoint == host && n.screen.key.ownerId == o && n.screen.local)
            && (HasLocal(r.store.nodes) ==> r.active.Some?)
  {
    hide PlaceFirst, FirstLocal;
    var start := SetCapture(EmptyDesk(EmptyStore(config)), true);
    EmptyStoreOk(config);
    assert Remove(EmptyStore(config), host) == EmptyStore(config);
    assert DropScreens(start, host) == start;
    var st := Register(EmptyStore(config), host, o, infos, true);
    RegisterKeeps(EmptyStore(config), host, o, infos, true);
    NodesGrow(EmptyStore(config), host, o, infos, true, |infos|);
    ActivateFirstLocalKeeps(start.(store := st));
  }

  /** At startup no screen is active yet, so the OS cursor is left where it is. */
  lemma BootNeverWarps(config: AppConfig, host: Endpoint, o: string, infos: seq<ScreenInfo>)
    ensures Boot(config, host, o, infos).capture.Some?
    ensures Boot(config, host, o, infos).capture.value.warps == []
  {
    hide PlaceFirst, FirstLocal;
    var start := SetCapture(EmptyDesk(EmptyStore(config)), true);
    assert DropScreens(start, host).capture == start.capture && DropScreens(start, host).active.None?;
    PreferringWarpsWhen(start.(store := Register(Remove(EmptyStore(config), host), host, o, infos, true)), false);
  }

  /** Startup ends at the host's first screen, if it has one, with the capture told that the host is in control. */
  lemma BootComesHome(config: AppConfig, host: Endpoint, o: string, infos: seq<ScreenInfo>)
    ensures var r := Boot(config, host, o, infos);
            Home(r) && r.capture == Some(Capture([false, false], []))
  {
    hide PlaceFirst, FirstLocal;
    var start := SetCapture(EmptyDesk(EmptyStore(config)), true);
    assert start.capture == Some(Capture([] + [false], [])) && start.active.None?;
    var st := Register(Remove(EmptyStore(config), host), host, o, infos, true);
    assert DropScreens(start, host) == start.(store := Remove(EmptyStore(config), host));
    assert DropScreens(start, host).(store := st) == start.(store := st);
    GoingHome(start.(store := st));
    assert Boot(config, host, o, infos) == ActivateFirstLocal(start.(store := st));
    var c := Boot(config, host, o, infos).capture.value;
    assert c.modes == [false, false] && c.warps == [];
  }

  /** The trusted list is never rewritten. */
  lemma PlaceScreenKeepsTrust(p: Placement, e: Endpoint, o: string, infos: seq<ScreenInfo>, i: nat, local: bool)
    requires i < |infos|
    ensures var r := PlaceScreen(p, e, o, infos, i, local).store;
            r.config.trustedClients == p.store.config.trustedClients && r.owners == p.store.owners
  {
    hide ChooseCell, IsAnchor, Emplace, UpsertLayout;
  }

  lemma {:induction false} PlaceFirstKeepsTrust(st: Store, e: Endpoint, o: string, infos: seq<ScreenInfo>,
                                                local: bool, n: nat)
    requires n <= |infos|
    ensures var p := PlaceFirst(st, e, o, infos, local, n).store;
            p.config.trustedClients == st.config.trustedClients && p.owners == st.owners
    decreases n
  {
    hide PlaceScreen;
    if 0 < n {
      PlaceFirstKeepsTrust(st, e, o, infos, local, n - 1);
      PlaceScreenKeepsTrust(PlaceFirst(st, e, o, infos, local, n - 1), e, o, infos, n - 1, local);
    }
  }
}
