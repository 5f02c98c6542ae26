/**
 * The store of routable screens: the endpoint multimap, the grid beside it, the
 * remembered layout, and the placement rules that fill all three.
 */
module Screens {
  import opened Core
  import opened Config
  import T = Topology

  /** Peers, ordered as the endpoint map orders them. */
  type Endpoint = nat

  datatype VirtualScreen =
    VirtualScreen(endpoint: Endpoint, key: ScreenKey, cell: GridPosition, local: bool, info: ScreenInfo)

  /** A multimap node. The id stands for its address: it is never used again after the node is erased. */
  datatype Node = Node(id: nat, screen: VirtualScreen)

  datatype Store = Store(
    config: AppConfig,
    nodes: seq<Node>,
    grid: T.Grid,
    owners: map<Endpoint, string>,
    nextId: nat)

  function EmptyStore(config: AppConfig): Store {
    Store(config, [], T.EMPTY_GRID, map[], 0)
  }

  // ----- The multimap -----

  /** Where a multimap inserts: after every node whose endpoint is not larger. */
  function UpperBound(nodes: seq<Node>, endpoint: Endpoint): (p: nat)
    ensures p <= |nodes|
    ensures forall i :: p <= i < |nodes| ==> endpoint < nodes[i].screen.endpoint
    ensures 0 < p ==> nodes[p - 1].screen.endpoint <= endpoint
  {
    if nodes == [] then 0
    else if nodes[|nodes| - 1].screen.endpoint <= endpoint then |nodes|
    else UpperBound(nodes[..|nodes| - 1], endpoint)
  }

  function Emplace(nodes: seq<Node>, n: Node): seq<Node> {
    var p := UpperBound(nodes, n.screen.endpoint);
    nodes[..p] + [n] + nodes[p..]
  }

  /** The nodes of all other endpoints, in order. */
  function Without(nodes: seq<Node>, endpoint: Endpoint): (r: seq<Node>)
    ensures forall n :: n in r <==> n in nodes && n.screen.endpoint != endpoint
  {
    if nodes == [] then []
    else
      var last := nodes[|nodes| - 1];
      assert nodes == nodes[..|nodes| - 1] + [last];
      Without(nodes[..|nodes| - 1], endpoint) + (if last.screen.endpoint == endpoint then [] else [last])
  }

  function OwnersOf(nodes: seq<Node>, endpoint: Endpoint): set<string> {
    set n | n in nodes && n.screen.endpoint == endpoint :: n.screen.key.ownerId
  }

  /** The first node with the key, in multimap order. */
  function Find(nodes: seq<Node>, key: ScreenKey): (r: Option<Node>)
    ensures r.Some? ==> r.value in nodes && r.value.screen.key == key
    ensures r.None? ==> forall n :: n in nodes ==> n.screen.key != key
  {
    if nodes == [] then None
    else if nodes[0].screen.key == key then Some(nodes[0])
    else Find(nodes[1..], key)
  }

  predicate IsPrimaryLocal(n: Node) {
    n.screen.local && n.screen.info.primary
  }

  function FirstPrimaryLocal(nodes: seq<Node>): (r: Option<Node>)
    ensures r.Some? ==> r.value in nodes && IsPrimaryLocal(r.value)
    ensures r.None? ==> forall n :: n in nodes ==> !IsPrimaryLocal(n)
  {
    if nodes == [] then None
    else if IsPrimaryLocal(nodes[0]) then Some(nodes[0])
    else FirstPrimaryLocal(nodes[1..])
  }

  function FirstOfLocals(nodes: seq<Node>): (r: Option<Node>)
    ensures r.Some? ==> r.value in nodes && r.value.screen.local
    ensures r.None? ==> forall n :: n in nodes ==> !n.screen.local
  {
    if nodes == [] then None
    else if nodes[0].screen.local then Some(nodes[0])
    else FirstOfLocals(nodes[1..])
  }

  /** The first primary local screen, or failing that the first local screen. */
  function FirstLocal(nodes: seq<Node>): (r: Option<Node>)
    ensures r.Some? ==> r.value in nodes && r.value.screen.local
    ensures r.None? <==> forall n :: n in nodes ==> !n.screen.local
  {
    var primary := FirstPrimaryLocal(nodes);
    if primary.Some? then primary else FirstOfLocals(nodes)
  }

  // ----- Placement -----

  /** Least x at or right of the start whose cell on row 0 is free. */
  function FirstFree(cells: set<GridPosition>, x: int): (r: int)
    ensures x <= r <= x + |cells|
    ensures GridPosition(r, 0) !in cells
    ensures forall i :: x <= i < r ==> GridPosition(i, 0) in cells
    decreases |cells|
  {
    var c := GridPosition(x, 0);
    if c !in cells then x
    else
      assert |cells - {c}| == |cells| - 1;
      FirstFree(cells - {c}, x + 1)
  }

  function FreeCellFrom(g: T.Grid, startX: int): GridPosition {
    GridPosition(FirstFree(g.cells.Keys, startX), 0)
  }

  /** The first screen marked primary, or the first screen. */
  function PrimaryIndex(infos: seq<ScreenInfo>): (i: nat)
    ensures i == 0 || i < |infos|
    ensures i < |infos| && infos[i].primary ==> forall j :: 0 <= j < i ==> !infos[j].primary
    ensures i < |infos| && !infos[i].primary ==> i == 0 && forall j :: 0 <= j < |infos| ==> !infos[j].primary
  {
    FirstPrimaryFrom(infos, 0)
  }

  function FirstPrimaryFrom(infos: seq<ScreenInfo>, from: nat): (i: nat)
    requires from <= |infos|
    requires forall j :: 0 <= j < from ==> !infos[j].primary
    ensures i == 0 || i < |infos|
    ensures i < |infos| && infos[i].primary ==> forall j :: 0 <= j < i ==> !infos[j].primary
    ensures i < |infos| && !infos[i].primary ==> i == 0 && forall j :: 0 <= j < |infos| ==> !infos[j].primary
    decreases |infos| - from
  {
    if from == |infos| then 0
    else if infos[from].primary then from
    else FirstPrimaryFrom(infos, from + 1)
  }

  /** A placement in progress: the store so far, and whether the local anchor has been handed out. */
  datatype Placement = Placement(store: Store, anchored: bool)

  /** Is this the local screen that anchors the default layout? */
  predicate IsAnchor(infos: seq<ScreenInfo>, i: nat, local: bool)
    requires i < |infos|
  {
    local && (infos[i].primary || i == PrimaryIndex(infos))
  }

  /** The cell for screen i: remembered if there is one and it is free, else the anchor, else packed to the right. */
  function ChooseCell(p: Placement, key: ScreenKey, anchor: bool): GridPosition {
    match FindLayout(p.store.config.screens, key)
    case Some(cell) => if cell in p.store.grid.cells then FreeCellFrom(p.store.grid, 1) else cell
    case None => if anchor && !p.anchored then GridPosition(0, 0) else FreeCellFrom(p.store.grid, 1)
  }

  function WithScreen(st: Store, endpoint: Endpoint, key: ScreenKey, cell: GridPosition,
                      info: ScreenInfo, local: bool): Store
  {
    var entry := T.TopologyScreen(key, cell, info, local);
    if T.AddError(st.grid, entry).Some? then st
    else
      var node := Node(st.nextId, VirtualScreen(endpoint, key, cell, local, info));
      st.(grid := T.Add(st.grid, entry),
          nodes := Emplace(st.nodes, node),
          nextId := st.nextId + 1,
          config := st.config.(screens := UpsertLayout(st.config.screens, ScreenLayout(key, cell))))
  }

  function PlaceScreen(p: Placement, endpoint: Endpoint, ownerId: string, infos: seq<ScreenInfo>,
                       i: nat, local: bool): Placement
    requires i < |infos|
  {
    var key := ScreenKey(ownerId, i);
    var anchor := IsAnchor(infos, i, local);
    Placement(WithScreen(p.store, endpoint, key, ChooseCell(p, key, anchor), infos[i], local), p.anchored || anchor)
  }

  /** The placement after the first n reported screens. */
  function PlaceFirst(st: Store, endpoint: Endpoint, ownerId: string, infos: seq<ScreenInfo>,
                      local: bool, n: nat): Placement
    requires n <= |infos|
  {
    if n == 0 then Placement(st, false)
    else PlaceScreen(PlaceFirst(st, endpoint, ownerId, infos, local, n - 1), endpoint, ownerId, infos, n - 1, local)
  }

  function Register(st: Store, endpoint: Endpoint, ownerId: string, infos: seq<ScreenInfo>, local: bool): Store {
    PlaceFirst(st, endpoint, ownerId, infos, local, |infos|).store
  }

  /** Nodes go by endpoint, grid entries by the owners those nodes had. */
  function Remove(st: Store, endpoint: Endpoint): Store {
    st.(nodes := Without(st.nodes, endpoint), grid := T.RemoveOwners(st.grid, OwnersOf(st.nodes, endpoint)))
  }

  function DefaultOwnerId(st: Store, endpoint: Endpoint, local: bool, format: Endpoint -> string): string {
    if local && st.config.machineId != "" then st.config.machineId
    else if endpoint in st.owners && st.owners[endpoint] != "" then st.owners[endpoint]
    else format(endpoint)
  }

  lemma RemoveOwnersTwice(g: T.Grid, a: set<string>, b: set<string>)
    ensures T.RemoveOwners(T.RemoveOwners(g, a), b) == T.RemoveOwners(g, a + b)
  {
  }

  // ----- The object -----

  class ServerScreenStore {
    var mConfig: AppConfig
    var mScreens: seq<Node>
    const mTopology: T.ScreenTopology
    var mEndpointOwners: map<Endpoint, string>
    /** The allocator of multimap nodes. */
    var nextId: nat
    /** How an endpoint prints. */
    const format: Endpoint -> string

    ghost function Model(): Store
      reads this, mTopology
    {
      Store(mConfig, mScreens, mTopology.Model(), mEndpointOwners, nextId)
    }

    ghost predicate Valid()
      reads this, mTopology
    {
      mTopology.Valid()
    }

    constructor (config: AppConfig, format: Endpoint -> string)
      ensures Valid() && fresh(mTopology)
      ensures Model() == EmptyStore(config) && this.format == format
    {
      mConfig := config;
      mScreens := [];
      mTopology := new T.ScreenTopology();
      mEndpointOwners := map[];
      nextId := 0;
      this.format := format;
    }

    /** Compares the cell with that of every registered screen. */
    method CellIsOccupied(cell: GridPosition) returns (occupied: bool)
      requires Valid()
      ensures occupied <==> cell in mTopology.mCells
    {
      var pending := mTopology.mScreens.Keys;
      while pending != {}
        invariant pending <= mTopology.mScreens.Keys
        invariant forall k :: k in mTopology.mScreens && k !in pending ==> mTopology.mScreens[k].cell != cell
        decreases |pending|
      {
        var key :| key in pending;
        if mTopology.mScreens[key].cell == cell {
          return true;
        }
        pending := pending - {key};
      }
      return false;
    }

    /** Scans row 0 to the right until a cell is free. */
    method NextFreeCell(startX: int) returns (cell: GridPosition)
      requires Valid()
      ensures cell == FreeCellFrom(mTopology.Model(), startX)
    {
      ghost var free := FirstFree(mTopology.mCells.Keys, startX);
      cell := GridPosition(startX, 0);
      while true
        invariant cell.y == 0 && startX <= cell.x <= free
        decreases free - cell.x
      {
        var occupied := CellIsOccupied(cell);
        if !occupied {
          return;
        }
        cell := cell.(x := cell.x + 1);
      }
    }

    method RegisterScreens(endpoint: Endpoint, ownerId: string, screens: seq<ScreenInfo>, local: bool)
      requires Valid()
      modifies this, mTopology
      ensures Valid()
      ensures Model() == Register(old(Model()), endpoint, ownerId, screens, local)
    {
      var primaryIndex := 0;
      var i := 0;
      while i < |screens|
        invariant i <= |screens| && primaryIndex == 0
        invariant forall j :: 0 <= j < i ==> !screens[j].primary
        invariant FirstPrimaryFrom(screens, i) == PrimaryIndex(screens)
      {
        if screens[i].primary {
          primaryIndex := i;
          break;
        }
        i := i + 1;
      }

      var primaryRegistered := false;
      for index := 0 to |screens|
        invariant Valid()
        invariant Placement(Model(), primaryRegistered)
               == PlaceFirst(old(Model()), endpoint, ownerId, screens, local, index)
      {
        primaryRegistered := RegisterScreen(endpoint, ownerId, screens, index, primaryIndex, primaryRegistered, local);
      }
    }

    /** One turn of the registration loop: pick the cell, repair it if it is stale, add the screen. */
    method RegisterScreen(endpoint: Endpoint, ownerId: string, screens: seq<ScreenInfo>, index: nat,
                          primaryIndex: nat, registered: bool, local: bool)
      returns (primaryRegistered: bool)
      requires Valid() && index < |screens| && primaryIndex == PrimaryIndex(screens)
      modifies this, mTopology
      ensures Valid()
      ensures Placement(Model(), primaryRegistered)
           == PlaceScreen(Placement(old(Model()), registered), endpoint, ownerId, screens, index, local)
    {
      var info := screens[index];
      var key := ScreenKey(ownerId, index);
      var cell := GridPosition(0, 0);
      var usedPersistedCell := false;
      primaryRegistered := registered;
      var configured := FindLayout(mConfig.screens, key);
      if configured.Some? {
        cell := configured.value;
        usedPersistedCell := true;
        if local && (info.primary || index == primaryIndex) {
          primaryRegistered := true;
        }
      } else if local && info.primary && !primaryRegistered {
        primaryRegistered := true;
      } else if local && index == primaryIndex && !primaryRegistered {
        primaryRegistered := true;
      } else {
        cell := NextFreeCell(1);
      }

      var cellOccupied := CellIsOccupied(cell);
      if usedPersistedCell && cellOccupied {
        cell := NextFreeCell(1);
      }
      var added := AddScreen(endpoint, key, cell, info, local);
    }

    method AddScreen(endpoint: Endpoint, key: ScreenKey, cell: GridPosition, info: ScreenInfo, local: bool)
      returns (added: Option<Node>)
      requires Valid()
      modifies this, mTopology
      ensures Valid()
      ensures Model() == WithScreen(old(Model()), endpoint, key, cell, info, local)
      ensures added == if |mScreens| == |old(mScreens)| then None
                       else Some(Node(old(nextId), VirtualScreen(endpoint, key, cell, local, info)))
    {
      var error := mTopology.AddScreen(T.TopologyScreen(key, cell, info, local));
      if error.Some? {
        return None;
      }
      var node := Node(nextId, VirtualScreen(endpoint, key, cell, local, info));
      var position := UpperBound(mScreens, endpoint);
      mScreens := mScreens[..position] + [node] + mScreens[position..];
      nextId := nextId + 1;
      mConfig := mConfig.(screens := UpsertLayout(mConfig.screens, ScreenLayout(key, cell)));
      return Some(node);
    }

    /** Answers whether the active node was among those erased. */
    method RemoveScreen(endpoint: Endpoint, activeScreen: Option<Node>) returns (activeRemoved: bool)
      requires Valid()
      modifies this, mTopology
      ensures Valid()
      ensures Model() == Remove(old(Model()), endpoint)
      ensures activeRemoved <==>
              (activeScreen.Some? && activeScreen.value in old(mScreens) && activeScreen.value !in mScreens)
    {
      var ownerIds;
      ownerIds, activeRemoved := VisitEndpoint(endpoint, activeScreen);
      ghost var owners := OwnersOf(mScreens, endpoint);
      mScreens := Without(mScreens, endpoint);
      ghost var done: set<string> := {};
      for i := 0 to |ownerIds|
        invariant Valid() && mScreens == Without(old(mScreens), endpoint)
        invariant mConfig == old(mConfig) && mEndpointOwners == old(mEndpointOwners) && nextId == old(nextId)
        invariant done == (set o | o in ownerIds[..i])
        invariant mTopology.Model() == T.RemoveOwners(old(mTopology.Model()), done)
      {
        RemoveOwnersTwice(old(mTopology.Model()), done, {ownerIds[i]});
        assert ownerIds[..i + 1] == ownerIds[..i] + [ownerIds[i]];
        mTopology.RemoveOwner(ownerIds[i]);
        done := done + {ownerIds[i]};
      }
      assert ownerIds[..|ownerIds|] == ownerIds;
      assert done == owners;
    }

    /** Collects each owner of the endpoint once, and looks out for the active node. */
    method VisitEndpoint(endpoint: Endpoint, activeScreen: Option<Node>)
      returns (ownerIds: seq<string>, activeRemoved: bool)
      ensures forall o :: o in ownerIds <==> o in OwnersOf(mScreens, endpoint)
      ensures activeRemoved <==>
              (activeScreen.Some? && activeScreen.value in mScreens && activeScreen.value.screen.endpoint == endpoint)
    {
      ownerIds := [];
      activeRemoved := false;
      for i := 0 to |mScreens|
        invariant forall o :: o in ownerIds <==>
                  exists j :: 0 <= j < i && mScreens[j].screen.endpoint == endpoint && mScreens[j].screen.key.ownerId == o
        invariant activeRemoved <==> (activeScreen.Some? &&
                  exists j :: 0 <= j < i && mScreens[j].screen.endpoint == endpoint && mScreens[j] == activeScreen.value)
      {
        if mScreens[i].screen.endpoint == endpoint {
          if mScreens[i].screen.key.ownerId !in ownerIds {
            ownerIds := ownerIds + [mScreens[i].screen.key.ownerId];
          }
          if activeScreen.Some? && mScreens[i] == activeScreen.value {
            activeRemoved := true;
          }
        }
      }
    }

    method FindScreen(key: ScreenKey) returns (found: Option<Node>)
      ensures found == Find(mScreens, key)
    {
      for i := 0 to |mScreens|
        invariant Find(mScreens, key) == Find(mScreens[i..], key)
      {
        if mScreens[i].screen.key == key {
          return Some(mScreens[i]);
        }
      }
      return None;
    }

    method FirstLocalScreen() returns (selected: Option<Node>)
      ensures selected == FirstLocal(mScreens)
    {
      selected := None;
      for i := 0 to |mScreens|
        invariant FirstPrimaryLocal(mScreens) == FirstPrimaryLocal(mScreens[i..])
        invariant selected.None? ==> FirstOfLocals(mScreens) == FirstOfLocals(mScreens[i..])
        invariant selected.Some? ==> FirstOfLocals(mScreens) == selected
      {
        if !mScreens[i].screen.local {
          continue;
        }
        if selected.None? || mScreens[i].screen.info.primary {
          selected := Some(mScreens[i]);
        }
        if mScreens[i].screen.info.primary {
          return;
        }
      }
    }

    method DefaultOwner(endpoint: Endpoint, local: bool) returns (ownerId: string)
      ensures ownerId == DefaultOwnerId(Model(), endpoint, local, format)
    {
      if local && mConfig.machineId != "" {
        return mConfig.machineId;
      }
      if endpoint in mEndpointOwners && mEndpointOwners[endpoint] != "" {
        return mEndpointOwners[endpoint];
      }
      return format(endpoint);
    }

    method RememberOwner(endpoint: Endpoint, ownerId: string)
      modifies this
      ensures Model() == old(Model()).(owners := old(mEndpointOwners)[endpoint := ownerId])
    {
      mEndpointOwners := mEndpointOwners[endpoint := ownerId];
    }

    method ForgetOwner(endpoint: Endpoint)
      modifies this
      ensures Model() == old(Model()).(owners := old(mEndpointOwners) - {endpoint})
    {
      mEndpointOwners := mEndpointOwners - {endpoint};
    }
  }
}
