# mksync, verified

mksync shares one keyboard and mouse between machines. A server captures the host's
input, keeps every machine's screens on an integer grid, and, when the pointer leaves a
screen through an edge, hands it to the screen in the adjacent cell; while that screen
belongs to a client, input is queued to the client's session, framed onto its TCP stream
and injected there. This project models that engine and proves what it keeps.

| file | what it holds |
|---|---|
| `Core.dfy`, `EntryMap.dfy`, `Topology.dfy` | events and screens; the arithmetic of crossing an edge; the grid and its two maps |
| `Config.dfy`, `Presenter.dfy` | the remembered layout, the trusted clients, and editing the layout by hand |
| `Screens.dfy`, `StoreLaws.dfy` | the endpoint multimap, the grid and the layout together, and when they agree |
| `PlacementLaws.dfy`, `LayoutOrder.dfy` | where registration puts screens: nothing lost, no gaps, the same again next time, in any order of arrival |
| `Input.dfy`, `InputLaws.dfy`, `PointerLaws.dfy` | the input router, what it keeps, and what each kind of event does |
| `Gestures.dfy`, `Examples.dfy` | whole gestures, and one desk to try them on |
| `Transport.dfy`, `Client.dfy`, `Pipeline.dfy` | framing, the client's read loop, and one session's path from queue to injector |
| `Server.dfy`, `Session.dfy`, `DeskLaws.dfy`, `SessionLaws.dfy` | the host's callbacks, the life of a session, and what they do to the pointer |
| `World.dfy`, `WorldLaws.dfy`, `Theorems.dfy` | all of it as a transition system, the invariant, and what it means in every state of every run |
| `Coordinates.dfy`, `Backend.dfy` | desktop/local coordinates of the Linux backends; backend registration and selection |

The program's objects are classes with its fields (`ScreenTopology`, `ServerScreenStore`,
`ServerInputRouter`, `Server`, `ServerSession`, `RpcTransport`, `Client`, ...). Each
method is proved to take the object's value to the value a function gives; the laws are
proved about those functions, and the transition system in `World.dfy` is built from the
same functions.

Conventions:

- A multimap node carries an id that is never used again, standing for its address, and
  the multimap is the sequence of its nodes in order. The router's active pointer is such
  a node or nothing; it is live when the store still has that very node.
- The outcome of a cursor move the backend is asked for, and of an injection, is a
  parameter of the step (`warpOk`, `injectOk`). A queue's try-send succeeds when its
  writer is alive and fewer than 10 events wait.
- `History` (accepted deliveries, successful warps, suppressed samples) is kept for the
  statements only; the router never reads it.
- How an endpoint prints, and the payload serializer, are parameters; the serializer is
  assumed to round-trip where a theorem says `RoundTrips`, which only what arrives at the
  clients depends on.
- A transport's `room` says after how many more bytes its stream fails, if it does.

Where the code and its own words differ, the model follows the code:

- `src/app/server_input.cpp:45-48` says that preferring the local primary does not take
  the path that warps the OS pointer; lines 49-55 call `switchActiveScreen`, which does. At
  startup the comment holds, because no screen is active yet and an earlier branch is
  taken (`DeskLaws.BootNeverWarps`); a later call does warp (`DeskLaws.PreferringWarpsWhen`).
- `src/app/server_input.hpp:94-95` says that the pending warp suppresses the echo of a warp,
  which on a border pixel would cross back at once. What is suppressed
  (`src/app/server_input.cpp:319-327`) is the first sample that names the pixel: if that is
  one already on its way, the echo itself crosses (`Examples.EchoAfterStraySampleCrosses`;
  exactly when: `Gestures.WarpEchoCrossesExactlyWhen`).
- `src/app/server_screens.hpp:48-50` says the local primary is put at (0,0) when it has no
  remembered cell. It is refused, and not registered at all, when an earlier screen of the
  host is remembered there (`PlacementLaws.RefusedPrimaryExample`; exactly when:
  `PlacementLaws.LocalScreenRegistered`).
- Removing an endpoint's screens erases nodes by endpoint but grid entries by owner
  (`src/app/server_screens.cpp:147-167`), so the store and the grid can fall apart when two
  endpoints have screens of one owner (`StoreLaws.SharedOwnerExample`; exactly when:
  `StoreLaws.RemoveKeepsSyncedIff`). Theorems that need agreement ask that so far no owner,
  the host's included, has had screens on two endpoints at once (`OwnersOnceThroughout`).

## Model

| member | source | states |
|---|---|---|
| EntryMap.EntryInRange | src/core/topology.cpp:35-50 | every source coordinate, in range or not, lands on a pixel of the target |
| EntryMap.EntryMonotone | src/core/topology.cpp:35-50 | the entry map never reverses order |
| EntryMap.EntryKeepsCorners | src/core/topology.cpp:35-50 | first pixel goes to first, last to last |
| EntryMap.EntryWithinHalfPixel | src/core/topology.cpp:35-50 | the entry pixel is within half a target pixel of exact scaling, ties upwards |
| EntryMap.EntryRoundTrip | src/core/topology.cpp:35-50 | through a screen at least as large and back is the identity, 1-pixel extents included |
| EntryMap.EntryRoundTripError | src/core/topology.cpp:35-50 | through a smaller screen and back the error d satisfies 2T·abs(d) <= S+T |
| Topology.AddKeepsInverse | src/core/topology.cpp:54-70 | adding a screen keeps the two maps inverse to each other |
| Topology.RemoveOwnersKeepsInverse | src/core/topology.cpp:72-82 | removing owners keeps the two maps inverse to each other |
| Topology.ScreenTopology.AddScreen | src/core/topology.cpp:54-70 | invalid rectangle, duplicate key and taken cell are refused in that order, with nothing changed |
| Topology.ScreenTopology.RemoveOwner | src/core/topology.cpp:72-82 | the erasing loop leaves exactly the screens and cells of the other owners |
| Topology.HitEdgeInNumbers | src/core/topology.cpp:114-136 | which edge each point tries to cross, on the screen or beyond it; corners belong to the sides |
| Topology.EntryInNumbers | src/core/topology.cpp:15-33 | from cell (x,y) Left, Right, Top, Bottom lead to the screen at (x-1,y), (x+1,y), (x,y-1), (x,y+1), onto its last column, first column, last row, first row, and to no other |
| Topology.EntryExistsWhen | src/core/topology.cpp:138-184 | there is an entry exactly if some screen has that cell; otherwise the error says what is missing |
| Topology.NeighborSymmetric | src/core/topology.cpp:101-112 | t lies across e from k if and only if k lies across the opposite edge from t |
| Topology.AsManyCellsAsScreens | src/core/topology.cpp:54-70 | as many cells are taken as there are screens |
| Topology.EntryLandsInside | src/core/topology.cpp:138-184 | a successful mapping ends on a pixel of the registered neighbour |
| Topology.EntryAndBack | src/core/topology.cpp:138-184 | across an edge and back returns to the source screen on the border it was left through, and to the very pixel if the neighbour's border is as long |
| Config.FindAfterUpsert | src/config/app_config.cpp:57-83 | remembering one screen is a point update of the lookup |
| Config.UpsertIsOneRow | src/config/app_config.cpp:71-83 | a known screen's row is replaced where it stands, a new one is appended |
| Presenter.SettingsPresenter.CellIsOccupied | ui/presentation/settings_presenter.cpp:266-279 | whether a row other than the ignored one has the cell |
| Presenter.SettingsPresenter.AddScreen | ui/presentation/settings_presenter.cpp:143-178 | refused exactly for bad input or a cell another row has; otherwise only that screen's remembered cell changes; distinct cells stay distinct |
| Presenter.SettingsPresenter.MoveScreen | ui/presentation/settings_presenter.cpp:180-194 | as above, for one row |
| Presenter.SettingsPresenter.RemoveScreen | ui/presentation/settings_presenter.cpp:196-206 | drops one row; distinct cells stay distinct |
| Presenter.RememberedCellsDiffer | ui/presentation/settings_presenter.cpp:266-279 | in a layout without shared cells two screens are never given the same cell |
| Screens.ServerScreenStore.NextFreeCell | src/app/server_screens.cpp:266-283 | the scan stops at the least free x at or right of the start on row 0 |
| Screens.ServerScreenStore.RegisterScreens | src/app/server_screens.cpp:36-106 | the registration loop places screen after screen: remembered cell, repaired if taken, else anchor, else packed right |
| Screens.ServerScreenStore.AddScreen | src/app/server_screens.cpp:108-145 | a node exists only if the grid took the screen, and only then is its cell remembered |
| Screens.ServerScreenStore.RemoveScreen | src/app/server_screens.cpp:147-167 | nodes go by endpoint, grid entries by the owners those nodes had; answers whether the active node went |
| Screens.ServerScreenStore.FindScreen | src/app/server_screens.cpp:171-187 | the first node with the key in multimap order |
| Screens.ServerScreenStore.FirstLocalScreen | src/app/server_screens.cpp:189-206 | the loop picks the first primary local screen, or else the first local one |
| StoreLaws.FirstLocalIsFirst | src/app/server_screens.cpp:189-206 | no primary comes before the one chosen; no local screen does if none is primary |
| StoreLaws.RegisterKeeps | src/app/server_screens.cpp:36-145 | registration keeps: maps inverse, nodes ordered with ids of their own, every grid screen routable, every grid cell remembered; and agreement of multimap and grid |
| StoreLaws.RemoveKeepsOk | src/app/server_screens.cpp:147-167 | removal keeps the same, whoever shares owners |
| StoreLaws.RemoveKeepsSyncedIff | src/app/server_screens.cpp:147-167 | removal leaves multimap and grid in agreement if and only if no other endpoint shares an owner with the removed one |
| StoreLaws.SharedOwnerExample | src/app/server_screens.cpp:147-167 | two reports under one owner from two endpoints, after which closing the second unlists a screen the first still has |
| StoreLaws.FindIsFirst | src/app/server_screens.cpp:171-187 | what is found is the first node with the key, whenever there is one |
| StoreLaws.DefaultOwnerIs | src/app/server_screens.cpp:220-232 | the host's machine id; for others, and a host without one, the noted owner, or else the printed endpoint |
| StoreLaws.FindGridScreen | src/app/server_screens.cpp:171-187 | a grid screen is always found; in agreement, with the grid's own data |
| StoreLaws.SyncedCounts | src/app/server_screens.cpp:108-167 | in agreement, multimap and grid have the same keys and the same number of screens |
| PlacementLaws.PlacementIs | src/app/server_screens.cpp:36-106 | screen i is registered if and only if it is drawable and not the refused anchor, at the cell meant for it; every screen already there keeps its place |
| PlacementLaws.RegisteredByTheRules | src/app/server_screens.cpp:36-106 | the rules in terms of the grid's screens: a remembered cell if it is free, else the leftmost free one from (1,0) on; the origin for an unremembered host primary; and exactly who is turned away |
| PlacementLaws.RemotePeerIsPlaced | src/app/server_screens.cpp:36-145 | a remote owner gets all drawable screens in, on distinct cells that were free, remembered, with no other owner disturbed |
| PlacementLaws.FreeCellIsLeast | src/app/server_screens.cpp:266-283 | the free-cell search ends within as many steps as there are screens, and every cell it passed is some screen's |
| PlacementLaws.LocalScreenRegistered | src/app/server_screens.cpp:58-78 | at startup a host screen is registered if and only if it is drawable and is not an unremembered anchor whose origin an earlier screen is remembered at |
| PlacementLaws.RefusedPrimaryExample | src/app/server_screens.cpp:68-78 | a host whose second monitor became primary while the first is remembered at the origin |
| PlacementLaws.StartupRegistersSome | src/app/server_screens.cpp:36-106 | startup registers some host screen if and only if some reported one is drawable |
| PlacementLaws.DefaultLayoutIsPacked | src/app/server_screens.cpp:68-83 | one registration with nothing remembered: the anchor takes (0,0) and the others go on with the row, without gaps |
| LayoutOrder.DefaultLayoutIsOneRow | src/app/server_screens.cpp:68-83 | any number of first arrivals on an empty layout, the host first: the host's anchor at (0,0) and all other drawable screens at (1,0), (2,0), ... in order of arrival and report, without gaps |
| PlacementLaws.RemoveUndoesRegister | src/app/server_screens.cpp:147-167 | removing a freshly registered peer restores the grid and keeps what was remembered |
| PlacementLaws.ReconnectRestoresLayout | src/app/server_screens.cpp:36-106 | registering, leaving and registering again, even from another endpoint, gives the same grid and layout |
| LayoutOrder.LayoutIsHonoured | src/app/server_screens.cpp:58-66 | when the reported screens are configured on distinct cells, each lands on its own and nothing is rewritten, whatever else the layout holds |
| LayoutOrder.HandMadeCellsApart | ui/presentation/settings_presenter.cpp:266-279 | a layout without shared cells is always such a layout |
| LayoutOrder.ArrivalOrderIrrelevant | src/app/server_screens.cpp:36-106 | then any order of arrival gives the same grid and layout |
| Input.ServerInputRouter.HandleInputEvent | src/app/server_input.cpp:62-103 | one captured event takes the router, the queues and the capture to the state `Handle` gives |
| Input.ServerInputRouter.HandleRemoteMouseMove | src/app/server_input.cpp:175-250 | motion on a remote screen: re-key, delta, crossing before clamping; ignored when no remote screen is active |
| Input.ServerInputRouter.HandleMouseMove | src/app/server_input.cpp:123-173 | motion at home: baseline, echo, edge, crossing; handed on when a remote screen is active, ignored when none is |
| Input.ServerInputRouter.SwitchActiveScreen | src/app/server_input.cpp:254-296 | active node, cursor, mode, then entry move or warp |
| Input.ServerInputRouter.EventAtActivePoint | src/app/server_input.cpp:298-317 | buttons and wheel are put at the virtual cursor, buttons under its screen index |
| Input.ServerInputRouter.SuppressPendingLocalWarp | src/app/server_input.cpp:319-327 | only the awaited point is swallowed, and only once |
| Input.ServerInputRouter.MoveLocalCursorToActivePoint | src/app/server_input.cpp:329-350 | an echo is awaited only for a warp that was carried out |
| Input.ServerInputRouter.QueueInputForScreen | src/app/server_input.cpp:368-394 | queued, and answered so, if and only if the screen is remote, has a sender and the queue takes it |
| Input.ServerInputRouter.EnsureActiveLocalScreen | src/app/server_input.cpp:39-58 | picks a local screen when none is active, or the preferred one |
| Input.ServerInputRouter.ActivateFirstLocalScreen | src/app/server_input.cpp:396-417 | the first local screen at (0,0), or nothing, with baseline and echo forgotten |
| InputLaws.SwitchKeeps | src/app/server_input.cpp:254-296 | a switch keeps the invariant and finds its target whenever the grid has it, whoever shares owners |
| InputLaws.HandleKeeps | src/app/server_input.cpp:62-103 | every event keeps: live pointer, mode told, warps accounted; queues at most one message, for the screen then active; with store and grid in agreement, keeps the cursor in its screen and queues only what fits |
| InputLaws.DeliversExactlyWhen | src/app/server_input.cpp:237-292 | an event is queued if and only if the screen then active is remote, its queue takes it and it is not a motionless sample; what is queued is the cursor's position |
| PointerLaws.SwitchGoesTo | src/app/server_input.cpp:254-296 | all that a switch does: node, pixel, mode, then the queued entry for a client, or the warp and, if it was carried out, the awaited echo at home |
| PointerLaws.RemoteSample | src/app/server_input.cpp:175-250 | a sample on a client's screen goes by its raw deltas or the change of position; across the edge it reaches to whatever screen is adjacent, the host's or another client's; else to the nearest pixel of the same screen, which the client is sent |
| PointerLaws.RemoteCrossesExactlyWhen | src/app/server_input.cpp:217-250 | the active screen changes if and only if some screen is adjacent there, and then to that one |
| PointerLaws.LocalSample | src/app/server_input.cpp:123-173 | a sample at home names the screen it was captured on; it is swallowed as an echo, or crosses to the adjacent screen, or is only noted |
| PointerLaws.F12ComesHome | src/app/server_input.cpp:107-121 | pressing F12 on a client's screen ends at the first local screen and queues nothing; elsewhere it does nothing |
| PointerLaws.OtherKeysGoOut | src/app/server_input.cpp:62-103 | every other key event, F12 releases included, moves nothing and goes to the active client unchanged |
| PointerLaws.ButtonsGoOut | src/app/server_input.cpp:298-317 | a button goes to the active client at the cursor's pixel and screen, and to nobody at home |
| PointerLaws.WheelGoesOut | src/app/server_input.cpp:298-317 | so does the wheel |
| PointerLaws.NothingActive | src/app/server_input.cpp:62-103 | with no active screen no event has any effect |
| Gestures.TravelTelescopes | src/app/server_input.cpp:190-250 | absolute samples on one remote screen move the cursor by the last sample minus the baseline, zero deltas included |
| Gestures.RawDeltasAddUp | src/app/server_input.cpp:190-250 | raw deltas add up whatever absolute position comes with them |
| Gestures.EntryPlusTravel | src/app/server_input.cpp:143-250 | from a crossing on, cursor = entry point + last sample - crossing sample, from the host or from another remote screen |
| Gestures.RoundTripComesHome | src/app/server_input.cpp:123-296 | out through an edge, any straight motion beyond, back through the opposite edge: home on the same border, on the same pixel if the remote border is as long, and the OS cursor is put there |
| Gestures.StraightBackComesHome | src/app/server_input.cpp:123-296 | leaving at any pixel of any of the four edges and coming straight back puts the OS cursor on exactly that pixel when the remote border is as long |
| Gestures.WarpEchoCrossesExactlyWhen | src/app/server_input.cpp:319-350 | whatever arrives between a warp and its echo without crossing: the echo is swallowed if and only if no earlier sample names its pixel, and crosses if and only if one does and the pixel leads across an edge |
| Examples.LeavesToTheRight | tests/test_server.cpp:698-769 | a 1920x1080 host left at (1919,540) enters a 2560x1440 client at (0,720), which is what the client is sent |
| Examples.ComesBackToThePixel | tests/test_server.cpp:698-769 | 19 pixels back the OS cursor is put at (1919,540): the premises of the gesture theorems are met |
| Examples.EchoAfterStraySampleCrosses | src/app/server_input.cpp:319-350 | on that desk, a stray sample at (1919,540) is taken for the echo of a warp there, and the echo makes the client's screen active |
| Transport.FindByIdIsInverse | src/rpc/transport.cpp:39-61 | ids and message types correspond one to one |
| Transport.FrameInBytes | src/rpc/transport.cpp:16-37 | the size and the type's number, both with the larger byte first, then the payload |
| Transport.FramedExactlyWhen | src/rpc/transport.cpp:16-37 | what can be framed is what encodes to at most 65535 bytes; which error otherwise |
| Transport.ReadInBytes | src/rpc/transport.cpp:63-86 | what any bytes read as: nothing until all announced bytes are there, then a message exactly if the type is known and the payload decodes |
| Transport.ReadOwnFrame | src/rpc/transport.cpp:16-86 | a frame followed by anything reads back as its message, consuming exactly the frame |
| Transport.PartialFrameIncomplete | src/rpc/transport.cpp:63-70 | part of a frame is never taken for a message |
| Transport.FramesReadBack | src/rpc/transport.cpp:16-86 | concatenated frames read back as exactly their messages, leaving what follows |
| Transport.RpcTransport.WriteMessage | src/rpc/transport.cpp:16-37 | nothing if the payload cannot be encoded or exceeds 65535 bytes, else one whole frame, or as much of it as the stream takes before it fails |
| Transport.RpcTransport.ReadMessage | src/rpc/transport.cpp:63-86 | the next message, or why there is none |
| Client.Client.HandleMessage | src/app/client.cpp:116-156 | input events are injected in order; a failure stops the client |
| Client.Client.HandleRead | src/app/client.cpp:108-114 | the read loop injects message after message until the first failure |
| Client.EverythingIsInjected | src/app/client.cpp:108-156 | from whole frames of any messages every event is injected in order, other messages are skipped, the screen of the last move is kept, and the client goes on, as long as the injector carries out what it is given |
| Client.StopsAtFirstRefusal | src/app/client.cpp:116-156 | the first event it refuses stops the client, with all before it injected |
| Client.StopsAtTheEnd | src/app/client.cpp:108-114 | so does the end of the stream, or a message that makes no sense |
| Pipeline.InputsAreInjected | src/app/client.cpp:108-156 | hence of k accepted events out of n exactly the first k are injected, and the client goes on if and only if k = n |
| Pipeline.NextReadIsNextSent | src/rpc/transport.cpp:63-86 | from a frame boundary, a complete read of what has arrived is exactly the next event sent |
| Pipeline.ClientReadKeeps | src/app/client.cpp:108-156 | the client stays at frame boundaries and injects what it read |
| Pipeline.ClientReadInjects | src/app/client.cpp:108-156 | one turn of the client injects the next event sent and goes on exactly if the injector carried it out |
| Pipeline.ArrivedFrameIsRead | src/rpc/transport.cpp:63-86 | a frame that has arrived whole can be read |
| Pipeline.CaughtUp | src/app/client.cpp:108-114 | a client that was not stopped and has read all that was written has injected all that was sent |
| Pipeline.InjectedIsPrefixOfAccepted | src/app/server_session.cpp:114-128 | what was injected is a prefix of what was accepted |
| Server.Server.Start | src/app/server.cpp:52-66 | capture first, then the host's screens under its own name |
| Server.Server.RegisterScreens | src/app/server.cpp:144-158 | full replacement that never leaves the router at an erased node |
| Server.Server.RemoveEndpointScreens | src/app/server.cpp:160-165 | removal that falls back to a local screen if the active one went |
| Server.Server.OnClosed | src/app/server.cpp:122-126 | screens, sender and owner note go |
| Session.ServerSession.Handshake | src/app/server_session.cpp:59-92 | only a trusted hello starts service; the owner is noted before trust is checked |
| Session.ServerSession.HandleMessage | src/app/server_session.cpp:94-112 | reports replace the peer's screens, anything else is ignored |
| Session.ServerSession.StartWriter | src/app/server_session.cpp:114-120 | publishes a fresh queue |
| Session.ServerSession.WriteNext | src/app/server_session.cpp:122-126 | oldest event first; a message that cannot be framed, or a stream that fails within it, ends the session |
| Session.ServerSession.Close | src/app/server_session.cpp:16-27 | the guard's cleanup |
| SessionLaws.WhoIsServed | src/app/server_session.cpp:59-92 | a first message opens service exactly if it is a hello with the machine id or the name of a list entry, or the list is empty; the owner is the machine id, or the printed endpoint if that is empty |
| SessionLaws.SameMachineSameOwner | src/app/server_session.cpp:66-72 | one machine id is one owner from whatever endpoint |
| SessionLaws.MachineComesBack | src/app/server_session.cpp:66-72 | so a machine that comes back from another endpoint finds grid and layout as it left them |
| DeskLaws.ReplaceKeeps | src/app/server.cpp:144-158 | a remote report keeps the invariant, touches only the endpoint's nodes, and leaves some screen active if a local one exists |
| DeskLaws.ReportLeavesPointer | src/app/server.cpp:144-158 | it leaves the pointer and what the capture was told alone unless the pointer was on a screen replaced, or nowhere; then the pointer comes home without a warp |
| DeskLaws.CloseLeavesPointer | src/app/server.cpp:122-165 | the end of a session leaves them alone unless the pointer was on one of its screens; then likewise |
| DeskLaws.HostReplaceKeeps | src/app/server.cpp:144-158 | a report of the host's own screens, whenever made, keeps the invariant, queues at most one message, and in agreement brings the pointer to the first local screen and queues none |
| DeskLaws.PreferringWarpsWhen | src/app/server_input.cpp:39-58 | preferring the local primary warps the OS cursor if and only if some screen is active already and there is a local one, found under its own key (as it is when no two nodes share a key) |
| DeskLaws.BootNeverWarps | src/app/server.cpp:52-66 | so startup does not warp it |
| DeskLaws.BootComesHome | src/app/server.cpp:52-66 | and it ends at the first pixel of the host's first screen, with the capture told that the host is in control |
| DeskLaws.CloseKeeps | src/app/server.cpp:122-165 | a session's end keeps the invariant and removes exactly its part |
| WorldLaws.StepOrderly | src/app/server.cpp:106-165 | every step of every component keeps all of the invariant but the streams, with no assumption on the serializer |
| WorldLaws.StepKeeps | src/app/server.cpp:106-165 | and, with a serializer that round-trips, the streams and clients too |
| WorldLaws.RunKeeps | src/app/server.cpp:52-165 | so every state of every run satisfies the whole invariant |
| Theorems.PointerLiveAndModeTold | src/app/server_input.cpp:352-366 | in every run the active pointer is null or live, and the last mode commanded says whether the active screen is remote |
| Theorems.PointerNeverNull | src/app/server.cpp:144-165 | the pointer is set in every state if and only if startup reported a drawable screen |
| Theorems.SuppressionsPaidFor | src/app/server_input.cpp:319-350 | an echo is awaited only at home, and suppressed samples never outnumber successful warps |
| Theorems.OnlyTrustedPeersHaveScreens | src/app/server_session.cpp:13-128 | remote screens and queues only for open sessions whose first message was a trusted hello, owner notes exactly for those that said hello |
| Theorems.DefaultOwnerIsSessionOwner | src/app/server_session.cpp:66-72 | in every state of every run, the owner of a peer that said hello is its machine id, or its printed endpoint if that is empty: that is its session's owner, the owner noted, the answer of `defaultOwnerId`, and the owner of all its screens |
| Theorems.MachinesHaveOneOwner | src/app/server_session.cpp:66-72 | at any two moments of a run, on any endpoints, one machine id is one owner |
| Theorems.HellosServed | src/app/server_session.cpp:59-92 | in every run a first message is served exactly if it is a hello the list lets in |
| Theorems.PointerUndisturbed | src/app/server.cpp:106-165 | in every run only captured events move the pointer, except that it comes home when the screens of its endpoint are replaced or go, or when a report comes while it is nowhere |
| Theorems.OnlyReportsCount | src/app/server_session.cpp:94-112 | and of a served peer's messages only reports have any effect |
| Theorems.CloseLeavesNothing | src/app/server.cpp:122-126 | after a close nothing of the session is left |
| Theorems.AccountIsDeliveries | src/app/server_input.cpp:368-394 | at every moment of every run, the account of a connection is exactly what try-send accepted for its endpoint since it was made, while its session is open, and an initial part of that ever after |
| Theorems.ClientsSeePrefixes | src/app/server_session.cpp:114-128 | what its client injected is a prefix of that; until the session is ending, all of it has been sent or is queued |
| Theorems.WillingClientsKeepUp | src/app/client.cpp:108-156 | in every run a client whose injector refused nothing is still reading, and once it has read all that was written, it has injected everything accepted for it but what is still queued |
| Theorems.EveryLinkWasOpened | src/app/server.cpp:106-132 | and these are all the connections there are |
| Theorems.QueuedEventsFit | src/app/server_input.cpp:175-317 | as long as no owner has had screens on two endpoints at once, every event ever queued has coordinates inside the receiving screen, moves and buttons its index |
| Theorems.CursorNeverReset | src/app/server_input.cpp:180-188 | under the same condition the reset of a missing or foreign cursor never happens |
| Theorems.StoreMatchesGrid | src/app/server_screens.cpp:108-167 | and under the same condition multimap and grid hold the same screens in every state |
| Theorems.ReportsArePlaced | src/app/server.cpp:115-121 | every report of a served peer gets all its drawable screens placed and remembered, disturbing no other owner, provided no other endpoint has screens of that owner at that moment |
| Coordinates.XcbPlatform.GlobalToScreen | src/platform/xcb.cpp:159-195 | the first containing or else first nearest screen, empty screens included, and going back gives the point, for every point |
| Coordinates.XcbDistanceIsLeast | src/platform/xcb.cpp:180-184 | the distance compared is the least to any point of the screen, borders included |
| Coordinates.XcbLocalRoundTrip | src/platform/xcb.cpp:159-206 | on disjoint screens the only answer for a pixel of a screen is that screen and that pixel |
| Coordinates.PortalPlatform.GlobalToLocal | src/platform/wayland_portal.cpp:493-533 | the first containing or else first nearest screen, always a pixel of it: the one the point falls in, or the one nearest to the rounded point |
| Coordinates.PortalDistanceIsLeast | src/platform/wayland_portal.cpp:511-524 | the distance compared is the least to any point between the screen's first and last pixels |
| Coordinates.PortalOffScreen | src/platform/wayland_portal.cpp:535-547 | a local point off the screen stands for the nearest pixel on it |
| Coordinates.PortalLocalRoundTrip | src/platform/wayland_portal.cpp:493-547 | local to global to local is the identity on disjoint screens |
| Coordinates.WaylandPlatform.AbsolutePositionOf | src/platform/wayland.cpp:194-227 | below its extent always, and the exact bounding-box offset when the box fits 32 bits |
| Backend.BackendRegistry.Register | src/platform/backend.cpp:70-85 | incomplete descriptors and repeated names are ignored |
| Backend.BackendRegistry.SelectBackend | src/platform/backend.cpp:123-158 | the least suitable backend by (order, name); an explicit name never falls back |
| Backend.SelectionUnique | src/platform/backend.cpp:123-158 | there is only one least suitable backend |
| Backend.SuitableWhen | src/platform/backend.cpp:53-67 | suitable exactly if available, capable of all that is required, and created |
| Backend.BackendRegistry.RegisteredBackends | src/platform/backend.cpp:87-95 | the listing holds every backend, by order first and then by name |
| Backend.BeforeMeans | src/platform/backend.cpp:90-93 | where names are in dictionary order |
| Backend.SortAscending | src/platform/backend.cpp:87-95 | the listing ascends by (order, name) |
| Backend.RegistrationOrderIrrelevant | src/platform/backend.cpp:70-95 | the listing does not depend on the order of registration |

## Left out

- EntryMap.RoundQuotient: models the rounded `double` quotient as exact rounding of the integer quotient; the `double` is exact for real extents.
- Integers are unbounded: 32-bit overflow of coordinates, cells and deltas is not modelled.
- Sockets, coroutines and cancellation: an await is one atomic step, TCP a reliable byte sequence that may break off at any byte, and sessions have distinct endpoints, none of them the host's; a stream that fails only in the final flush is a whole frame followed by the end of the session.
- A later report of the host's own screens: the program makes one, at startup, so runs have no other; `Server.RegisterScreens` and `DeskLaws.HostReplaceKeeps` cover the call itself.
- The bytes of a client's own messages (hello, screens): the server side of a session takes them as decoded messages.
- Serialization of payloads, JSON and file saving, logging, and the random machine id.
- A sender's handle is not an object of its own: a queue lives in the sender map under its endpoint, so aliasing of handles is not captured.
- The order of `ScreenTopology::screens()` and of the erasing loop over it: the model visits screens in any order.
- Portal distances are compared squared, and over reals rather than `double`.
- `rawMotionDelta`, key tables, OS calls of the backends, and all of the UI except editing the layout: they would add only easy members.
- Trimming of text typed into the settings page, and its signals and messages.
