/** A hand-made layout is honoured whatever order the peers arrive in. */
module LayoutOrder {
  import opened Core
  import opened Config
  import opened Screens
  import opened PlacementLaws
  import opened Presenter
  import T = Topology

  /** One registration: an endpoint, the owner behind it, and what it reports. */
  datatype Peer = Peer(endpoint: Endpoint, ownerId: string, infos: seq<ScreenInfo>, local: bool)

  function RegisterAll(st: Store, peers: seq<Peer>): Store {
    if peers == [] then st
    else
      var p := peers[|peers| - 1];
      Register(RegisterAll(st, peers[..|peers| - 1]), p.endpoint, p.ownerId, p.infos, p.local)
  }

  /** Every screen the peer reports is drawable and has a configured cell. */
  ghost predicate Configured(config: AppConfig, p: Peer) {
    forall i :: 0 <= i < |p.infos| ==>
      ValidRect(p.infos[i]) && FindLayout(config.screens, ScreenKey(p.ownerId, i)).Some?
  }

  ghost predicate IsReported(peers: seq<Peer>, k: ScreenKey) {
    exists p :: p in peers && p.ownerId == k.ownerId && k.screenIndex < |p.infos|
  }

  /** No two screens the peers report are configured on one cell. Rows about anybody else do not matter. */
  ghost predicate CellsApart(config: AppConfig, peers: seq<Peer>) {
    forall k, l :: IsReported(peers, k) && IsReported(peers, l) && k != l ==>
      FindLayout(config.screens, k) != FindLayout(config.screens, l)
  }

  ghost predicate OwnersDiffer(peers: seq<Peer>) {
    forall a, b :: 0 <= a < b < |peers| ==> peers[a].ownerId != peers[b].ownerId
  }

  ghost predicate AllConfigured(config: AppConfig, peers: seq<Peer>) {
    && (forall p :: p in peers ==> Configured(config, p))
    && CellsApart(config, peers)
    && OwnersDiffer(peers)
  }

  /** A layout the settings page made, in which no two rows share a cell, keeps any peers' screens apart. */
  lemma HandMadeCellsApart(config: AppConfig, peers: seq<Peer>)
    requires CellsDistinct(config.screens) && forall p :: p in peers ==> Configured(config, p)
    ensures CellsApart(config, peers)
  {
    forall k, l | IsReported(peers, k) && IsReported(peers, l) && k != l
      ensures FindLayout(config.screens, k) != FindLayout(config.screens, l)
    {
      RememberedCellsDiffer(config.screens, k, l);
      var p :| p in peers && p.ownerId == k.ownerId && k.screenIndex < |p.infos|;
      assert k == ScreenKey(p.ownerId, k.screenIndex);
    }
  }

  /** The grid entry the layout prescribes for screen i of a peer. */
  function Prescribed(config: AppConfig, p: Peer, i: nat): T.TopologyScreen
    requires i < |p.infos|
  {
    var key := ScreenKey(p.ownerId, i);
    var cell := match FindLayout(config.screens, key) case Some(c) => c case None => GridPosition(0, 0);
    T.TopologyScreen(key, cell, p.infos[i], p.local)
  }

  ghost predicate IsPrescribed(config: AppConfig, peers: seq<Peer>, k: ScreenKey, s: T.TopologyScreen) {
    exists p, i :: p in peers && 0 <= i < |p.infos| && k == ScreenKey(p.ownerId, i) && s == Prescribed(config, p, i)
  }

  /** The grid holds the prescribed screens of the peers and nothing else. */
  ghost predicate FollowsLayout(config: AppConfig, peers: seq<Peer>, g: T.Grid) {
    && T.Inverse(g)
    && (forall k :: k in g.screens ==> IsPrescribed(config, peers, k, g.screens[k]))
    && (forall p, i :: p in peers && 0 <= i < |p.infos| ==>
          ScreenKey(p.ownerId, i) in g.screens && g.screens[ScreenKey(p.ownerId, i)] == Prescribed(config, p, i))
  }

  /** Every grid screen sits at its remembered cell. */
  ghost predicate AtRemembered(config: AppConfig, g: T.Grid) {
    forall k :: k in g.screens ==> FindLayout(config.screens, k) == Some(g.screens[k].cell)
  }

  ghost predicate OnlyReported(peers: seq<Peer>, g: T.Grid) {
    forall k :: k in g.screens ==> IsReported(peers, k)
  }

  /** So far the peer has rewritten nothing, and every grid screen is a reported one at its remembered cell. */
  ghost predicate Steady(st: Store, peers: seq<Peer>, p: Peer, n: nat)
    requires n <= |p.infos|
  {
    var r := PlaceFirst(st, p.endpoint, p.ownerId, p.infos, p.local, n).store;
    r.config == st.config && T.Inverse(r.grid) && AtRemembered(st.config, r.grid) && OnlyReported(peers, r.grid)
  }

  lemma {:induction false} ConfiguredPeerSteady(st: Store, peers: seq<Peer>, p: Peer, n: nat)
    requires n <= |p.infos| && Configured(st.config, p) && p in peers && CellsApart(st.config, peers)
    requires OwnerAbsent(st.grid, p.ownerId) && Steady(st, peers, p, 0)
    ensures Steady(st, peers, p, n)
    decreases n
  {
    hide Steady, Configured, CellsApart, OwnerAbsent;
    if 0 < n {
      var i := n - 1;
      ConfiguredPeerSteady(st, peers, p, i);
      ConfiguredScreenPlaced(st, peers, p, i);
      assert n == i + 1;
    }
  }

  /** The configured cell of a screen whose turn has come is free: no other reported screen is remembered there. */
  lemma ConfiguredCellFree(config: AppConfig, peers: seq<Peer>, p: Peer, n: nat, g: T.Grid)
    requires n < |p.infos| && Configured(config, p) && p in peers && CellsApart(config, peers)
    requires T.Inverse(g) && AtRemembered(config, g) && OnlyReported(peers, g)
    requires ScreenKey(p.ownerId, n) !in g.screens
    ensures Prescribed(config, p, n).cell !in g.cells
  {
    var key, cell := ScreenKey(p.ownerId, n), Prescribed(config, p, n).cell;
    assert IsReported(peers, key);
    forall c | c in g.cells ensures c != cell {
      assert FindLayout(config.screens, g.cells[c]) == Some(c);
    }
  }

  /** So it is accepted, on its configured cell. */
  lemma ConfiguredScreenAccepted(st: Store, peers: seq<Peer>, p: Peer, n: nat)
    requires n < |p.infos| && Configured(st.config, p) && p in peers && CellsApart(st.config, peers)
    requires OwnerAbsent(st.grid, p.ownerId) && Steady(st, peers, p, n)
    ensures ScreenKey(p.ownerId, n) !in PlaceFirst(st, p.endpoint, p.ownerId, p.infos, p.local, n).store.grid.screens
    ensures Prescribed(st.config, p, n).cell
            !in PlaceFirst(st, p.endpoint, p.ownerId, p.infos, p.local, n).store.grid.cells
    ensures CellFor(st, p.endpoint, p.ownerId, p.infos, p.local, n) == Prescribed(st.config, p, n).cell
    ensures Accepted(st, p.endpoint, p.ownerId, p.infos, p.local, n)
  {
    hide PlaceFirst, CellsApart, OwnerAbsent, OthersKept, OthersRemembered;
    PlacementIs(st, p.endpoint, p.ownerId, p.infos, p.local, n);
    ConfiguredCellFree(st.config, peers, p, n, PlaceFirst(st, p.endpoint, p.ownerId, p.infos, p.local, n).store.grid);
  }

  /** Adding a prescribed screen keeps every grid screen a reported one at its remembered cell. */
  lemma AddPrescribed(config: AppConfig, peers: seq<Peer>, p: Peer, n: nat, g: T.Grid)
    requires n < |p.infos| && Configured(config, p) && p in peers
    requires T.Inverse(g) && AtRemembered(config, g) && OnlyReported(peers, g)
    requires ScreenKey(p.ownerId, n) !in g.screens && Prescribed(config, p, n).cell !in g.cells
    ensures var s := Prescribed(config, p, n);
            var r := T.Grid(g.screens[s.key := s], g.cells[s.cell := s.key]);
            T.Inverse(r) && AtRemembered(config, r) && OnlyReported(peers, r)
    ensures UpsertLayout(config.screens, ScreenLayout(ScreenKey(p.ownerId, n), Prescribed(config, p, n).cell))
         == config.screens
  {
    T.AddKeepsInverse(g, Prescribed(config, p, n));
    UpsertOfKnown(config.screens, ScreenLayout(ScreenKey(p.ownerId, n), Prescribed(config, p, n).cell));
    assert IsReported(peers, ScreenKey(p.ownerId, n));
  }

  lemma ConfiguredScreenPlaced(st: Store, peers: seq<Peer>, p: Peer, n: nat)
    requires n < |p.infos| && Configured(st.config, p) && p in peers && CellsApart(st.config, peers)
    requires OwnerAbsent(st.grid, p.ownerId) && Steady(st, peers, p, n)
    ensures Steady(st, peers, p, n + 1)
  {
    hide PlaceFirst, CellsApart, OwnerAbsent, CellFor, Accepted, PlacedSoFar, Configured, AtRemembered, OnlyReported,
      T.Inverse, UpsertLayout;
    PlacementIs(st, p.endpoint, p.ownerId, p.infos, p.local, n);
    StepIs(st, p.endpoint, p.ownerId, p.infos, p.local, n);
    ConfiguredScreenAccepted(st, peers, p, n);
    AddPrescribed(st.config, peers, p, n, PlaceFirst(st, p.endpoint, p.ownerId, p.infos, p.local, n).store.grid);
  }

  lemma FollowsAtRemembered(config: AppConfig, peers: seq<Peer>, g: T.Grid)
    requires FollowsLayout(config, peers, g) && forall p :: p in peers ==> Configured(config, p)
    ensures AtRemembered(config, g)
  {
  }

  lemma FewerPeers(config: AppConfig, peers: seq<Peer>)
    requires peers != [] && AllConfigured(config, peers)
    ensures AllConfigured(config, peers[..|peers| - 1])
  {
    var front := peers[..|peers| - 1];
    forall k | IsReported(front, k) ensures IsReported(peers, k) {
      var p :| p in front && p.ownerId == k.ownerId && k.screenIndex < |p.infos|;
      assert p in peers;
    }
  }

  /**
   * When all reported screens are drawable and have pairwise distinct configured
   * cells, registering the peers on an empty store puts each screen at its configured
   * cell and rewrites nothing, whatever else the layout holds.
   */
  lemma {:induction false} LayoutIsHonoured(config: AppConfig, peers: seq<Peer>)
    requires AllConfigured(config, peers)
    ensures RegisterAll(EmptyStore(config), peers).config == config
    ensures FollowsLayout(config, peers, RegisterAll(EmptyStore(config), peers).grid)
    decreases |peers|
  {
    hide Register, IsPrescribed, CellsApart, Prescribed, Configured;
    if peers != [] {
      var front, p := peers[..|peers| - 1], peers[|peers| - 1];
      FewerPeers(config, peers);
      LayoutIsHonoured(config, front);
      var st := RegisterAll(EmptyStore(config), front);
      FollowsAtRemembered(config, front, st.grid);
      forall k | k in st.grid.screens ensures k.ownerId != p.ownerId {
        var q := OwnerReported(config, front, k, st.grid.screens[k]);
        var a :| 0 <= a < |front| && front[a] == q;
        assert peers[a] == q;
      }
      assert peers == front + [p];
      AddPeer(config, front, p, st);
    }
  }

  lemma OwnerReported(config: AppConfig, peers: seq<Peer>, k: ScreenKey, s: T.TopologyScreen) returns (p: Peer)
    requires IsPrescribed(config, peers, k, s)
    ensures p in peers && p.ownerId == k.ownerId && k.screenIndex < |p.infos|
  {
    var q, i :| q in peers && 0 <= i < |q.infos| && k == ScreenKey(q.ownerId, i) && s == Prescribed(config, q, i);
    p := q;
  }

  lemma FollowsOnlyReported(config: AppConfig, front: seq<Peer>, p: Peer, g: T.Grid)
    requires FollowsLayout(config, front, g)
    ensures OnlyReported(front + [p], g)
  {
    forall k | k in g.screens ensures IsReported(front + [p], k) {
      var q := OwnerReported(config, front, k, g.screens[k]);
      assert q in front + [p];
    }
  }

  lemma AddPeer(config: AppConfig, front: seq<Peer>, p: Peer, st: Store)
    requires st.config == config && CellsApart(config, front + [p]) && Configured(config, p)
    requires FollowsLayout(config, front, st.grid) && AtRemembered(config, st.grid) && OwnerAbsent(st.grid, p.ownerId)
    ensures var r := Register(st, p.endpoint, p.ownerId, p.infos, p.local);
            r.config == config && FollowsLayout(config, front + [p], r.grid)
  {
    hide CellsApart, Configured, AtRemembered, OwnerAbsent, Prescribed, IsPrescribed, OnlyReported;
    FollowsOnlyReported(config, front, p, st.grid);
    var peers := front + [p];
    assert p in peers;
    assert Steady(st, peers, p, 0);
    ConfiguredPeerSteady(st, peers, p, |p.infos|);
    OnlyOwnAdded(st, p);
    forall i | 0 <= i < |p.infos|
      ensures var r := Register(st, p.endpoint, p.ownerId, p.infos, p.local).grid;
              var key := ScreenKey(p.ownerId, i);
              key in r.screens && r.screens[key] == Prescribed(config, p, i)
    {
      PrescribedPlaced(st, peers, p, i);
    }
    StillFollows(config, front, p, st.grid, Register(st, p.endpoint, p.ownerId, p.infos, p.local).grid);
  }

  lemma OnlyOwnAdded(st: Store, p: Peer)
    requires OwnerAbsent(st.grid, p.ownerId)
    ensures var r := Register(st, p.endpoint, p.ownerId, p.infos, p.local).grid;
            && OthersKept(st.grid, r, p.ownerId)
            && forall k :: k in r.screens && k.ownerId == p.ownerId ==> k.screenIndex < |p.infos|
  {
    PlacementIs(st, p.endpoint, p.ownerId, p.infos, p.local, |p.infos|);
  }

  lemma PrescribedPlaced(st: Store, peers: seq<Peer>, p: Peer, i: nat)
    requires i < |p.infos| && Configured(st.config, p) && p in peers && CellsApart(st.config, peers)
    requires OwnerAbsent(st.grid, p.ownerId) && Steady(st, peers, p, 0)
    ensures var r := Register(st, p.endpoint, p.ownerId, p.infos, p.local).grid;
            var key := ScreenKey(p.ownerId, i);
            key in r.screens && r.screens[key] == Prescribed(st.config, p, i)
  {
    hide PlaceFirst, CellsApart, CellFor, Accepted, Steady, OwnerAbsent, Configured;
    ConfiguredPeerSteady(st, peers, p, i);
    ConfiguredScreenAccepted(st, peers, p, i);
    FinalScreen(st, p.endpoint, p.ownerId, p.infos, p.local, i);
  }

  lemma StillFollows(config: AppConfig, front: seq<Peer>, p: Peer, g: T.Grid, after: T.Grid)
    requires FollowsLayout(config, front, g) && T.Inverse(after) && OthersKept(g, after, p.ownerId)
    requires forall k :: k in after.screens && k.ownerId == p.ownerId ==> k.screenIndex < |p.infos|
    requires forall i :: 0 <= i < |p.infos| ==>
      ScreenKey(p.ownerId, i) in after.screens && after.screens[ScreenKey(p.ownerId, i)] == Prescribed(config, p, i)
    ensures FollowsLayout(config, front + [p], after)
  {
    hide Prescribed, T.Inverse, IsPrescribed;
    forall k | k in after.screens ensures IsPrescribed(config, front + [p], k, after.screens[k]) {
      if k.ownerId == p.ownerId {
        OwnIsPrescribed(config, front, p, k.screenIndex);
      } else {
        StillPrescribed(config, front, p, k, g.screens[k]);
      }
    }
  }

  lemma OwnIsPrescribed(config: AppConfig, front: seq<Peer>, p: Peer, i: nat)
    requires i < |p.infos|
    ensures IsPrescribed(config, front + [p], ScreenKey(p.ownerId, i), Prescribed(config, p, i))
  {
    hide Prescribed;
    assert p in front + [p];
  }

  lemma StillPrescribed(config: AppConfig, front: seq<Peer>, p: Peer, k: ScreenKey, s: T.TopologyScreen)
    requires IsPrescribed(config, front, k, s)
    ensures IsPrescribed(config, front + [p], k, s)
  {
    hide Prescribed;
    var q, i :| q in front && 0 <= i < |q.infos| && k == ScreenKey(q.ownerId, i) && s == Prescribed(config, q, i);
    assert q in front + [p];
  }

  /** The order of arrival does not matter. */
  lemma ArrivalOrderIrrelevant(config: AppConfig, peers: seq<Peer>, others: seq<Peer>)
    requires AllConfigured(config, peers) && AllConfigured(config, others)
    requires forall p :: p in peers <==> p in others
    ensures RegisterAll(EmptyStore(config), peers).grid == RegisterAll(EmptyStore(config), others).grid
    ensures RegisterAll(EmptyStore(config), peers).config == RegisterAll(EmptyStore(config), others).config
  {
    LayoutIsHonoured(config, peers);
    LayoutIsHonoured(config, others);
    SameLayoutSameGrid(config, peers, others,
                       RegisterAll(EmptyStore(config), peers).grid, RegisterAll(EmptyStore(config), others).grid);
  }

  lemma SameLayoutSameGrid(config: AppConfig, peers: seq<Peer>, others: seq<Peer>, g: T.Grid, h: T.Grid)
    requires FollowsLayout(config, peers, g) && FollowsLayout(config, others, h)
    requires forall p :: p in peers <==> p in others
    ensures g == h
  {
    hide Prescribed, IsPrescribed, T.Inverse;
    SameLayoutIncluded(config, peers, others, g, h);
    SameLayoutIncluded(config, others, peers, h, g);
    assert g.screens == h.screens;
    InverseDeterminesCells(g, h);
  }

  lemma SameLayoutIncluded(config: AppConfig, peers: seq<Peer>, others: seq<Peer>, g: T.Grid, h: T.Grid)
    requires FollowsLayout(config, peers, g) && FollowsLayout(config, others, h)
    requires forall p :: p in peers ==> p in others
    ensures forall k :: k in g.screens ==> k in h.screens && h.screens[k] == g.screens[k]
  {
    forall k | k in g.screens ensures k in h.screens && h.screens[k] == g.screens[k] {
      var q, i :| q in peers && 0 <= i < |q.infos| && k == ScreenKey(q.ownerId, i)
                  && g.screens[k] == Prescribed(config, q, i);
    }
  }

  lemma InverseDeterminesCells(g: T.Grid, h: T.Grid)
    requires T.Inverse(g) && T.Inverse(h) && g.screens == h.screens
    ensures g.cells == h.cells
  {
    forall c ensures c in g.cells ==> c in h.cells && h.cells[c] == g.cells[c]
             ensures c in h.cells ==> c in g.cells {
      if c in g.cells {
        assert h.screens[g.cells[c]].cell == c;
      }
      if c in h.cells {
        assert g.screens[h.cells[c]].cell == c;
      }
    }
  }

  // ----- Nothing configured: one packed row -----

  /** How many screens the peers have packed to the right. */
  function Total(peers: seq<Peer>): nat {
    if peers == [] then 0
    else
      var p := peers[|peers| - 1];
      Total(peers[..|peers| - 1]) + Packed(p.infos, p.local, |p.infos|)
  }

  /** The first peer, the host, has put its anchor at the origin. */
  predicate HostAnchored(peers: seq<Peer>) {
    peers != [] && AnchorPlaced(peers[0].infos, peers[0].local, |peers[0].infos|)
  }

  /** Grid and layout speak of these peers' owners only. */
  ghost predicate OnlyTheirs(st: Store, peers: seq<Peer>) {
    forall k :: k in st.grid.screens || FindLayout(st.config.screens, k).Some? ==>
      exists p :: p in peers && p.ownerId == k.ownerId
  }

  lemma StillOnlyTheirs(st: Store, front: seq<Peer>, p: Peer)
    requires OnlyTheirs(st, front) && OwnerAbsent(st.grid, p.ownerId)
    ensures OnlyTheirs(Register(st, p.endpoint, p.ownerId, p.infos, p.local), front + [p])
  {
    hide PlaceFirst, OwnPlaced, FindLayout, OwnerAbsent;
    PlacementIs(st, p.endpoint, p.ownerId, p.infos, p.local, |p.infos|);
    var r := Register(st, p.endpoint, p.ownerId, p.infos, p.local);
    forall k | k in r.grid.screens || FindLayout(r.config.screens, k).Some?
      ensures exists q :: q in front + [p] && q.ownerId == k.ownerId
    {
      if k.ownerId == p.ownerId {
        assert p in front + [p];
      } else {
        var q :| q in front && q.ownerId == k.ownerId;
        assert q in front + [p];
      }
    }
  }

  /** So whoever comes next is new, and nothing is remembered about it. */
  lemma NewcomerUnknown(st: Store, front: seq<Peer>, p: Peer)
    requires OnlyTheirs(st, front) && OwnersDiffer(front + [p])
    ensures OwnerAbsent(st.grid, p.ownerId) && NothingRemembered(st, p.ownerId, |p.infos|)
  {
    var all := front + [p];
    assert all[|front|] == p;
    forall q | q in front ensures q.ownerId != p.ownerId {
      var a :| 0 <= a < |front| && front[a] == q;
      assert all[a] == q;
    }
    forall i | 0 <= i < |p.infos| ensures FindLayout(st.config.screens, ScreenKey(p.ownerId, i)).None? {
      assert ScreenKey(p.ownerId, i).ownerId == p.ownerId;
    }
  }

  /** Peer a's screen i is where the row puts it. */
  ghost predicate InTheRow(g: T.Grid, peers: seq<Peer>, a: nat, i: nat)
    requires a < |peers| && i < |peers[a].infos|
  {
    var p := peers[a];
    var key := ScreenKey(p.ownerId, i);
    key in g.screens && g.screens[key].cell == PackedCell(p.infos, p.local, Total(peers[..a]), i)
  }

  /** One row: the anchor at the origin if there is one, and the rest from (1,0) on, in order of arrival. */
  ghost predicate OneRow(st: Store, peers: seq<Peer>) {
    && IsRow(st.grid.cells.Keys, HostAnchored(peers), Total(peers))
    && forall a, i :: 0 <= a < |peers| && 0 <= i < |peers[a].infos| && ValidRect(peers[a].infos[i]) ==>
         InTheRow(st.grid, peers, a, i)
  }

  /** The newcomer's screens continue the row. */
  lemma RowGoesOn(st: Store, front: seq<Peer>, p: Peer)
    requires OneRow(st, front) && OwnerAbsent(st.grid, p.ownerId) && NothingRemembered(st, p.ownerId, |p.infos|)
    requires front != [] ==> !p.local
    ensures OneRow(Register(st, p.endpoint, p.ownerId, p.infos, p.local), front + [p])
  {
    hide Register, IsRow, OwnerAbsent, NothingRemembered, PackedCell, Packed, AnchorPlaced, OwnPlaced, OthersRemembered;
    var all := front + [p];
    var g := Register(st, p.endpoint, p.ownerId, p.infos, p.local).grid;
    assert all[..|front|] == front;
    RowIs(st, front, p);
    forall a, i | 0 <= a < |all| && 0 <= i < |all[a].infos| && ValidRect(all[a].infos[i])
      ensures InTheRow(g, all, a, i)
    {
      if a < |front| {
        assert all[..a] == front[..a];
        assert InTheRow(st.grid, front, a, i);
        OldScreenStays(st, p, ScreenKey(all[a].ownerId, i));
      } else {
        DefaultLayoutIsPacked(st, p.endpoint, p.ownerId, p.infos, p.local, HostAnchored(front), Total(front), i);
      }
    }
  }

  lemma OldScreenStays(st: Store, p: Peer, k: ScreenKey)
    requires OwnerAbsent(st.grid, p.ownerId) && k in st.grid.screens
    ensures var r := Register(st, p.endpoint, p.ownerId, p.infos, p.local).grid;
            k in r.screens && r.screens[k] == st.grid.screens[k]
  {
    hide PlaceFirst, OwnPlaced;
    PlacementIs(st, p.endpoint, p.ownerId, p.infos, p.local, |p.infos|);
  }

  lemma RowIs(st: Store, front: seq<Peer>, p: Peer)
    requires IsRow(st.grid.cells.Keys, HostAnchored(front), Total(front)) && (front != [] ==> !p.local)
    requires OwnerAbsent(st.grid, p.ownerId) && NothingRemembered(st, p.ownerId, |p.infos|)
    ensures IsRow(Register(st, p.endpoint, p.ownerId, p.infos, p.local).grid.cells.Keys,
                  HostAnchored(front + [p]), Total(front + [p]))
  {
    hide PlaceFirst, IsRow, OwnerAbsent, NothingRemembered;
    var all := front + [p];
    assert all[..|all| - 1] == front && all[|all| - 1] == p;
    if front == [] {
      assert all[0] == p;
    } else {
      assert all[0] == front[0];
      AnchorComesOnce(p.infos, false, |p.infos|);
    }
    RowStaysPacked(st, p.endpoint, p.ownerId, p.infos, p.local, HostAnchored(front), Total(front), |p.infos|);
  }

  /**
   * The default layout, over a whole history of first arrivals: with nothing configured,
   * distinct owners and the host first, the grid is one row without gaps, with the host's
   * anchor at the origin, and every drawable screen sits at its place in the order of
   * arrival and report.
   */
  lemma {:induction false} DefaultLayoutIsOneRow(config: AppConfig, peers: seq<Peer>)
    requires config.screens == [] && OwnersDiffer(peers) && forall a :: 0 < a < |peers| ==> !peers[a].local
    ensures OneRow(RegisterAll(EmptyStore(config), peers), peers)
    ensures OnlyTheirs(RegisterAll(EmptyStore(config), peers), peers)
    decreases |peers|
  {
    hide OneRow, OnlyTheirs, Register;
    if peers == [] {
      EmptyRow(config);
    } else {
      var front, p := peers[..|peers| - 1], peers[|peers| - 1];
      DefaultLayoutIsOneRow(config, front);
      var st := RegisterAll(EmptyStore(config), front);
      assert peers == front + [p];
      NewcomerUnknown(st, front, p);
      RowGoesOn(st, front, p);
      StillOnlyTheirs(st, front, p);
    }
  }

  lemma EmptyRow(config: AppConfig)
    requires config.screens == []
    ensures OneRow(EmptyStore(config), []) && OnlyTheirs(EmptyStore(config), [])
  {
  }
}
