/** What every operation of the store keeps, and when the multimap and the grid agree exactly. */
module StoreLaws {
  import opened Core
  import opened Config
  import opened Screens
  import T = Topology

  ghost predicate Matches(v: VirtualScreen, t: T.TopologyScreen) {
    v.key == t.key && v.cell == t.cell && v.info == t.info && v.local == t.local
  }

  /** Node ids are never shared, live nodes were allocated, and the multimap is ordered. */
  ghost predicate NodesOk(nodes: seq<Node>, nextId: nat) {
    && (forall n :: n in nodes ==> n.id < nextId && ValidRect(n.screen.info))
    && Ordered(nodes)
  }

  ghost predicate Ordered(nodes: seq<Node>) {
    forall i, j :: 0 <= i < j < |nodes| ==>
      nodes[i].id != nodes[j].id && nodes[i].screen.endpoint <= nodes[j].screen.endpoint
  }

  ghost predicate KeysDistinct(nodes: seq<Node>) {
    forall i, j :: 0 <= i < j < |nodes| ==> nodes[i].screen.key != nodes[j].screen.key
  }

  /** Every grid screen has a routable node. */
  ghost predicate Covered(nodes: seq<Node>, g: T.Grid) {
    forall k :: k in g.screens ==> exists n :: n in nodes && Matches(n.screen, g.screens[k])
  }

  /** The remembered cell of every grid screen is the cell it has. */
  ghost predicate Remembered(layouts: seq<ScreenLayout>, g: T.Grid) {
    forall k :: k in g.screens ==> FindLayout(layouts, k) == Some(g.screens[k].cell)
  }

  ghost predicate StoreOk(st: Store) {
    && T.Inverse(st.grid)
    && NodesOk(st.nodes, st.nextId)
    && Covered(st.nodes, st.grid)
    && Remembered(st.config.screens, st.grid)
  }

  /** Every node is its grid screen, and no two nodes are the same one. */
  ghost predicate Exact(nodes: seq<Node>, g: T.Grid) {
    && (forall n :: n in nodes ==> n.screen.key in g.screens && Matches(n.screen, g.screens[n.screen.key]))
    && KeysDistinct(nodes)
  }

  /** Multimap and grid hold exactly the same screens. */
  ghost predicate Synced(st: Store) {
    StoreOk(st) && Exact(st.nodes, st.grid)
  }

  /** No other endpoint has a screen whose owner also has a screen on this one. */
  ghost predicate OwnersApart(nodes: seq<Node>, endpoint: Endpoint) {
    forall n, m :: n in nodes && m in nodes && n.screen.endpoint == endpoint && m.screen.endpoint != endpoint ==>
      n.screen.key.ownerId != m.screen.key.ownerId
  }

  // ----- Adding a screen -----

  lemma EmplaceMembers(nodes: seq<Node>, n: Node, m: Node)
    ensures m in Emplace(nodes, n) <==> m == n || m in nodes
  {
    var p := UpperBound(nodes, n.screen.endpoint);
    assert nodes == nodes[..p] + nodes[p..];
  }

  lemma EmplaceKeepsNodesOk(nodes: seq<Node>, n: Node)
    requires NodesOk(nodes, n.id) && ValidRect(n.screen.info)
    ensures NodesOk(Emplace(nodes, n), n.id + 1)
  {
    forall m | m in Emplace(nodes, n) ensures m.id < n.id + 1 && ValidRect(m.screen.info) {
      EmplaceMembers(nodes, n, m);
    }
    EmplaceKeepsOrdered(nodes, n);
  }

  lemma EmplaceKeepsOrdered(nodes: seq<Node>, n: Node)
    requires Ordered(nodes) && forall m :: m in nodes ==> m.id < n.id
    ensures Ordered(Emplace(nodes, n))
  {
    hide Ordered, UpperBound;
    var p := UpperBound(nodes, n.screen.endpoint);
    OrderedSplit(nodes, p);
    forall m | m in nodes[..p] ensures m.id != n.id && m.screen.endpoint <= n.screen.endpoint {
      assert m in nodes;
      LastIsLargest(nodes[..p], m);
    }
    OrderedSnoc(nodes[..p], n);
    forall m | m in nodes[p..] ensures m.id != n.id && n.screen.endpoint <= m.screen.endpoint {
      assert m in nodes;
    }
    OrderedConcat(nodes[..p] + [n], nodes[p..]);
  }

  lemma LastIsLargest(nodes: seq<Node>, m: Node)
    requires Ordered(nodes) && m in nodes
    ensures m.screen.endpoint <= nodes[|nodes| - 1].screen.endpoint
  {
  }

  lemma OrderedSplit(nodes: seq<Node>, p: nat)
    requires Ordered(nodes) && p <= |nodes|
    ensures Ordered(nodes[..p]) && Ordered(nodes[p..])
    ensures forall m, n :: m in nodes[..p] && n in nodes[p..] ==>
              m.id != n.id && m.screen.endpoint <= n.screen.endpoint
  {
  }

  lemma OrderedSnoc(nodes: seq<Node>, n: Node)
    requires Ordered(nodes) && forall m :: m in nodes ==> m.id != n.id && m.screen.endpoint <= n.screen.endpoint
    ensures Ordered(nodes + [n])
  {
  }

  lemma OrderedConcat(a: seq<Node>, b: seq<Node>)
    requires Ordered(a) && Ordered(b)
    requires forall m, n :: m in a && n in b ==> m.id != n.id && m.screen.endpoint <= n.screen.endpoint
    ensures Ordered(a + b)
  {
  }

  lemma EmplaceKeepsKeysDistinct(nodes: seq<Node>, n: Node)
    requires KeysDistinct(nodes) && forall m :: m in nodes ==> m.screen.key != n.screen.key
    ensures KeysDistinct(Emplace(nodes, n))
  {
    hide KeysDistinct, UpperBound;
    var p := UpperBound(nodes, n.screen.endpoint);
    KeysDistinctSplit(nodes, p);
    KeysDistinctSnoc(nodes[..p], n);
    KeysDistinctConcat(nodes[..p] + [n], nodes[p..]);
  }

  lemma KeysDistinctSplit(nodes: seq<Node>, p: nat)
    requires KeysDistinct(nodes) && p <= |nodes|
    ensures KeysDistinct(nodes[..p]) && KeysDistinct(nodes[p..])
    ensures forall m, n :: m in nodes[..p] && n in nodes[p..] ==> m.screen.key != n.screen.key
  {
  }

  lemma KeysDistinctConcat(a: seq<Node>, b: seq<Node>)
    requires KeysDistinct(a) && KeysDistinct(b)
    requires forall m, n :: m in a && n in b ==> m.screen.key != n.screen.key
    ensures KeysDistinct(a + b)
  {
  }

  lemma WithScreenKeepsOk(st: Store, e: Endpoint, key: ScreenKey, cell: GridPosition, info: ScreenInfo, local: bool)
    requires StoreOk(st)
    ensures StoreOk(WithScreen(st, e, key, cell, info, local))
  {
    var entry := T.TopologyScreen(key, cell, info, local);
    var r := WithScreen(st, e, key, cell, info, local);
    if T.AddError(st.grid, entry).None? {
      var node := Node(st.nextId, VirtualScreen(e, key, cell, local, info));
      T.AddKeepsInverse(st.grid, entry);
      EmplaceKeepsNodesOk(st.nodes, node);
      forall k | k in r.grid.screens
        ensures exists n :: n in r.nodes && Matches(n.screen, r.grid.screens[k])
        ensures FindLayout(r.config.screens, k) == Some(r.grid.screens[k].cell)
      {
        FindAfterUpsert(st.config.screens, ScreenLayout(key, cell), k);
        if k == key {
          EmplaceMembers(st.nodes, node, node);
        } else {
          var n :| n in st.nodes && Matches(n.screen, st.grid.screens[k]);
          EmplaceMembers(st.nodes, node, n);
        }
      }
    }
  }

  lemma WithScreenKeepsSynced(st: Store, e: Endpoint, key: ScreenKey, cell: GridPosition, info: ScreenInfo, local: bool)
    requires Synced(st)
    ensures Synced(WithScreen(st, e, key, cell, info, local))
  {
    WithScreenKeepsOk(st, e, key, cell, info, local);
    var entry := T.TopologyScreen(key, cell, info, local);
    var r := WithScreen(st, e, key, cell, info, local);
    if T.AddError(st.grid, entry).None? {
      var node := Node(st.nextId, VirtualScreen(e, key, cell, local, info));
      EmplaceKeepsKeysDistinct(st.nodes, node);
      forall n | n in r.nodes
        ensures n.screen.key in r.grid.screens && Matches(n.screen, r.grid.screens[n.screen.key])
      {
        EmplaceMembers(st.nodes, node, n);
      }
    }
  }

  lemma PlaceScreenKeeps(p: Placement, e: Endpoint, o: string, infos: seq<ScreenInfo>, i: nat, local: bool)
    requires i < |infos| && StoreOk(p.store)
    ensures StoreOk(PlaceScreen(p, e, o, infos, i, local).store)
    ensures Synced(p.store) ==> Synced(PlaceScreen(p, e, o, infos, i, local).store)
  {
    var key := ScreenKey(o, i);
    var cell := ChooseCell(p, key, IsAnchor(infos, i, local));
    if Synced(p.store) {
      WithScreenKeepsSynced(p.store, e, key, cell, infos[i], local);
    } else {
      WithScreenKeepsOk(p.store, e, key, cell, infos[i], local);
    }
  }

  /** Registration keeps the invariant, and keeps exactness whenever it starts from it. */
  lemma {:induction false} PlaceFirstKeeps(st: Store, e: Endpoint, o: string, infos: seq<ScreenInfo>,
                                           local: bool, n: nat)
    requires n <= |infos| && StoreOk(st)
    ensures StoreOk(PlaceFirst(st, e, o, infos, local, n).store)
    ensures Synced(st) ==> Synced(PlaceFirst(st, e, o, infos, local, n).store)
    decreases n
  {
    hide PlaceScreen, StoreOk, Exact;
    if 0 < n {
      PlaceFirstKeeps(st, e, o, infos, local, n - 1);
      var p := PlaceFirst(st, e, o, infos, local, n - 1);
      PlaceScreenKeeps(p, e, o, infos, n - 1, local);
    }
  }

  lemma RegisterKeeps(st: Store, e: Endpoint, o: string, infos: seq<ScreenInfo>, local: bool)
    requires StoreOk(st)
    ensures StoreOk(Register(st, e, o, infos, local))
    ensures Synced(st) ==> Synced(Register(st, e, o, infos, local))
  {
    PlaceFirstKeeps(st, e, o, infos, local, |infos|);
  }

  // ----- Removing an endpoint -----

  /** What holds of every pair of nodes still holds of the nodes that remain. */
  lemma {:induction false} WithoutKeepsOrdered(nodes: seq<Node>, e: Endpoint)
    requires Ordered(nodes)
    ensures Ordered(Without(nodes, e))
  {
    if nodes != [] {
      var front, last := nodes[..|nodes| - 1], nodes[|nodes| - 1];
      WithoutKeepsOrdered(front, e);
      forall m | m in Without(front, e) ensures m.id != last.id && m.screen.endpoint <= last.screen.endpoint {
        var q :| 0 <= q < |front| && front[q] == m;
        assert nodes[q] == m;
      }
      OrderedSnoc(Without(front, e), last);
    }
  }

  lemma {:induction false} WithoutKeepsKeysDistinct(nodes: seq<Node>, e: Endpoint)
    requires KeysDistinct(nodes)
    ensures KeysDistinct(Without(nodes, e))
  {
    if nodes != [] {
      var front, last := nodes[..|nodes| - 1], nodes[|nodes| - 1];
      WithoutKeepsKeysDistinct(front, e);
      forall m | m in Without(front, e) ensures m.screen.key != last.screen.key {
        var q :| 0 <= q < |front| && front[q] == m;
        assert nodes[q] == m;
      }
      KeysDistinctSnoc(Without(front, e), last);
    }
  }

  lemma KeysDistinctSnoc(nodes: seq<Node>, n: Node)
    requires KeysDistinct(nodes) && forall m :: m in nodes ==> m.screen.key != n.screen.key
    ensures KeysDistinct(nodes + [n])
  {
  }

  lemma RemoveKeepsOk(st: Store, e: Endpoint)
    requires StoreOk(st)
    ensures StoreOk(Remove(st, e))
  {
    var r := Remove(st, e);
    T.RemoveOwnersKeepsInverse(st.grid, OwnersOf(st.nodes, e));
    WithoutKeepsOrdered(st.nodes, e);
    forall k | k in r.grid.screens ensures exists n :: n in r.nodes && Matches(n.screen, r.grid.screens[k]) {
      var n :| n in st.nodes && Matches(n.screen, st.grid.screens[k]);
      assert st.grid.screens[k].key == k;
      assert n in r.nodes;
    }
  }

  /** The nodes that stay agree with the grid that stays. */
  lemma RemoveKeepsSynced(st: Store, e: Endpoint)
    requires Synced(st) && OwnersApart(st.nodes, e)
    ensures Synced(Remove(st, e))
  {
    RemoveKeepsOk(st, e);
    WithoutKeepsKeysDistinct(st.nodes, e);
    var r := Remove(st, e);
    forall n | n in r.nodes
      ensures n.screen.key in r.grid.screens && Matches(n.screen, r.grid.screens[n.screen.key])
    {
      assert n in st.nodes && n.screen.key.ownerId !in OwnersOf(st.nodes, e);
    }
  }

  lemma SharedOwnerUnlists(st: Store, e: Endpoint)
    requires !OwnersApart(st.nodes, e)
    ensures !Exact(Remove(st, e).nodes, Remove(st, e).grid)
  {
    var n, m :| n in st.nodes && m in st.nodes && n.screen.endpoint == e && m.screen.endpoint != e
                && n.screen.key.ownerId == m.screen.key.ownerId;
    assert m in Remove(st, e).nodes;
    assert n.screen.key.ownerId in OwnersOf(st.nodes, e);
    assert m.screen.key !in Remove(st, e).grid.screens;
  }

  /**
   * Removing an endpoint leaves multimap and grid in agreement exactly when no
   * other endpoint shares an owner with it: nodes are erased by endpoint, grid
   * entries by owner.
   */
  lemma RemoveKeepsSyncedIff(st: Store, e: Endpoint)
    requires Synced(st)
    ensures Synced(Remove(st, e)) <==> OwnersApart(st.nodes, e)
  {
    if OwnersApart(st.nodes, e) {
      RemoveKeepsSynced(st, e);
    } else {
      SharedOwnerUnlists(st, e);
    }
  }

  lemma EmptyStoreOk(config: AppConfig)
    ensures Synced(EmptyStore(config))
  {
  }

  // Two endpoints that give the machine id "m": the first reports one screen, the second that one and another.
  const SHARED_INFO := ScreenInfo(0, 0, 10, 10, 72, "", false)
  const FIRST_NODE := Node(0, VirtualScreen(1, ScreenKey("m", 0), GridPosition(1, 0), false, SHARED_INFO))
  const SECOND_NODE := Node(1, VirtualScreen(2, ScreenKey("m", 1), GridPosition(2, 0), false, SHARED_INFO))

  function OneReported(): Store {
    Register(EmptyStore(AppConfig("", [], [])), 1, "m", [SHARED_INFO], false)
  }

  function BothReported(): Store {
    Register(OneReported(), 2, "m", [SHARED_INFO, SHARED_INFO], false)
  }

  lemma PlaceOne(st: Store, e: Endpoint, o: string, info: ScreenInfo)
    ensures Register(st, e, o, [info], false) == PlaceScreen(Placement(st, false), e, o, [info], 0, false).store
  {
    assert PlaceFirst(st, e, o, [info], false, 0) == Placement(st, false);
  }

  lemma PlaceTwo(st: Store, e: Endpoint, o: string, infos: seq<ScreenInfo>)
    requires |infos| == 2
    ensures Register(st, e, o, infos, false)
         == PlaceScreen(PlaceScreen(Placement(st, false), e, o, infos, 0, false), e, o, infos, 1, false).store
  {
    hide PlaceScreen;
    assert PlaceFirst(st, e, o, infos, false, 0) == Placement(st, false);
    assert PlaceFirst(st, e, o, infos, false, 1) == PlaceScreen(Placement(st, false), e, o, infos, 0, false);
  }

  lemma OneReportedIs()
    ensures OneReported().nodes == [FIRST_NODE] && OneReported().nextId == 1
    ensures OneReported().grid.screens.Keys == {FIRST_NODE.screen.key}
    ensures OneReported().grid.cells.Keys == {GridPosition(1, 0)}
    ensures OneReported().config.screens == [ScreenLayout(FIRST_NODE.screen.key, GridPosition(1, 0))]
  {
    PlaceOne(EmptyStore(AppConfig("", [], [])), 1, "m", SHARED_INFO);
  }

  /** Of the second report only the screen that is new is taken. */
  lemma BothReportedIs()
    ensures BothReported().nodes == [FIRST_NODE, SECOND_NODE]
  {
    hide Register;
    OneReportedIs();
    var st := OneReported();
    var infos := [SHARED_INFO, SHARED_INFO];
    PlaceTwo(st, 2, "m", infos);
    LayoutIndexUnique(st.config.screens, ScreenKey("m", 0), 0);
    LayoutIndexUnique(st.config.screens, ScreenKey("m", 1), 1);
    assert PlaceScreen(Placement(st, false), 2, "m", infos, 0, false) == Placement(st, false);
    assert FreeCellFrom(st.grid, 1) == GridPosition(2, 0);
    assert Emplace([FIRST_NODE], SECOND_NODE) == [FIRST_NODE, SECOND_NODE];
  }

  /**
   * A client with one screen comes back from another endpoint with two before its old
   * session has ended. When the new session ends, the screen the old one still has is
   * unlisted.
   */
  lemma SharedOwnerExample()
    ensures Synced(BothReported()) && !Synced(Remove(BothReported(), 2))
    ensures FIRST_NODE in Remove(BothReported(), 2).nodes
    ensures FIRST_NODE.screen.key !in Remove(BothReported(), 2).grid.screens
  {
    hide Register, StoreOk, Exact;
    EmptyStoreOk(AppConfig("", [], []));
    RegisterKeeps(EmptyStore(AppConfig("", [], [])), 1, "m", [SHARED_INFO], false);
    RegisterKeeps(OneReported(), 2, "m", [SHARED_INFO, SHARED_INFO], false);
    BothReportedIs();
    var nodes := BothReported().nodes;
    assert nodes[0] == FIRST_NODE && nodes[1] == SECOND_NODE;
    assert FIRST_NODE in nodes && SECOND_NODE in nodes;
    assert "m" in OwnersOf(nodes, 2);
    SharedOwnerUnlists(BothReported(), 2);
  }

  // ----- Looking a screen up -----

  /** What is found is the first node with the key, and it is found whenever there is one. */
  lemma {:induction false} FindIsFirst(nodes: seq<Node>, key: ScreenKey, i: nat)
    requires i < |nodes|
    ensures Find(nodes, key) == Some(nodes[i]) && (forall j :: 0 <= j < i ==> nodes[j] != nodes[i]) <==>
            nodes[i].screen.key == key && forall j :: 0 <= j < i ==> nodes[j].screen.key != key
  {
    if 0 < i && nodes[0].screen.key != key {
      FindIsFirst(nodes[1..], key, i - 1);
      assert nodes == [nodes[0]] + nodes[1..];
    }
  }

  /** A screen of the grid is always found; in a synced store it is found with the grid's own data. */
  lemma FindGridScreen(st: Store, key: ScreenKey)
    requires StoreOk(st) && key in st.grid.screens
    ensures Find(st.nodes, key).Some?
    ensures Synced(st) ==> Matches(Find(st.nodes, key).value.screen, st.grid.screens[key])
  {
    var n :| n in st.nodes && Matches(n.screen, st.grid.screens[key]);
    assert n.screen.key == key;
  }

  /** The host goes by its machine id; a peer, or a host without one, by what is noted of it, or else as it prints. */
  lemma DefaultOwnerIs(st: Store, e: Endpoint, local: bool, format: Endpoint -> string)
    ensures local && st.config.machineId != "" ==> DefaultOwnerId(st, e, local, format) == st.config.machineId
    ensures !local || st.config.machineId == "" ==>
              && (e in st.owners && st.owners[e] != "" ==> DefaultOwnerId(st, e, local, format) == st.owners[e])
              && (e !in st.owners || st.owners[e] == "" ==> DefaultOwnerId(st, e, local, format) == format(e))
  {
  }

  /** Position i is where the loop over the multimap stops, or failing that the first local it noted. */
  ghost predicate ChosenAt(nodes: seq<Node>, i: nat) {
    && i < |nodes| && nodes[i].screen.local
    && (if IsPrimaryLocal(nodes[i]) then forall j :: 0 <= j < i ==> !IsPrimaryLocal(nodes[j])
        else
          && (forall j :: 0 <= j < |nodes| ==> !IsPrimaryLocal(nodes[j]))
          && (forall j :: 0 <= j < i ==> !nodes[j].screen.local))
  }

  lemma {:induction false} FirstPrimaryAt(nodes: seq<Node>) returns (i: nat)
    requires FirstPrimaryLocal(nodes).Some?
    ensures i < |nodes| && nodes[i] == FirstPrimaryLocal(nodes).value
    ensures forall j :: 0 <= j < i ==> !IsPrimaryLocal(nodes[j])
  {
    i := 0;
    if !IsPrimaryLocal(nodes[0]) {
      var k := FirstPrimaryAt(nodes[1..]);
      i := k + 1;
    }
  }

  lemma {:induction false} FirstOfLocalsAt(nodes: seq<Node>) returns (i: nat)
    requires FirstOfLocals(nodes).Some?
    ensures i < |nodes| && nodes[i] == FirstOfLocals(nodes).value
    ensures forall j :: 0 <= j < i ==> !nodes[j].screen.local
  {
    i := 0;
    if !nodes[0].screen.local {
      var k := FirstOfLocalsAt(nodes[1..]);
      i := k + 1;
    }
  }

  /** The first local screen is the first primary one in multimap order, or, if none is primary, the first of all. */
  lemma FirstLocalIsFirst(nodes: seq<Node>, n: Node)
    requires FirstLocal(nodes) == Some(n)
    ensures exists i: nat :: ChosenAt(nodes, i) && nodes[i] == n
  {
    var i: nat;
    if FirstPrimaryLocal(nodes).Some? {
      i := FirstPrimaryAt(nodes);
    } else {
      i := FirstOfLocalsAt(nodes);
    }
    assert ChosenAt(nodes, i);
  }

  ghost function KeysOf(nodes: seq<Node>): set<ScreenKey> {
    set n | n in nodes :: n.screen.key
  }

  /** In a synced store the number of nodes is the number of grid screens. */
  lemma SyncedCounts(st: Store)
    requires Synced(st)
    ensures |st.nodes| == |st.grid.screens|
    ensures KeysOf(st.nodes) == st.grid.screens.Keys
  {
    assert KeysOf(st.nodes) == st.grid.screens.Keys by {
      forall k | k in st.grid.screens ensures k in KeysOf(st.nodes) {
        var n :| n in st.nodes && Matches(n.screen, st.grid.screens[k]);
        assert n.screen.key == k;
      }
    }
    DistinctKeysCount(st.nodes);
    assert |st.grid.screens| == |st.grid.screens.Keys|;
  }

  lemma {:induction false} DistinctKeysCount(nodes: seq<Node>)
    requires KeysDistinct(nodes)
    ensures |KeysOf(nodes)| == |nodes|
  {
    hide KeysOf;
    if nodes == [] {
      NoKeys();
    } else {
      var front, last := nodes[..|nodes| - 1], nodes[|nodes| - 1];
      DistinctKeysCount(front);
      forall m | m in front ensures m.screen.key != last.screen.key {
        var q :| 0 <= q < |front| && front[q] == m;
        assert nodes[q] == m;
      }
      assert nodes == front + [last];
      OneMoreKey(front, last);
    }
  }

  lemma NoKeys()
    ensures KeysOf([]) == {}
  {
  }

  lemma OneMoreKey(nodes: seq<Node>, n: Node)
    requires forall m :: m in nodes ==> m.screen.key != n.screen.key
    ensures |KeysOf(nodes + [n])| == |KeysOf(nodes)| + 1
  {
    assert KeysOf(nodes + [n]) == KeysOf(nodes) + {n.screen.key};
  }
}
