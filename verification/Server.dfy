/**
 * The host side: replacing and dropping a peer's screens without ever leaving the
 * router pointing at an erased node, and the life of one session.
 */
module Server {
  import opened Core
  import opened Config
  import opened Screens
  import opened Input
  import opened PlacementLaws

  // ----- What the callbacks do -----

  /** Was the active node among those the removal erased? */
  predicate ActiveErased(d: Desk, e: Endpoint) {
    d.active.Some? && d.active.value in d.store.nodes && d.active.value !in Remove(d.store, e).nodes
  }

  function DropScreens(d: Desk, e: Endpoint): Desk {
    var dropped := d.(store := Remove(d.store, e));
    if ActiveErased(d, e) then ClearActive(dropped) else dropped
  }

  /** Full replacement of what an endpoint reports. */
  function ReplaceScreens(d: Desk, e: Endpoint, o: string, infos: seq<ScreenInfo>, local: bool, warpOk: bool): Desk {
    var dropped := DropScreens(d, e);
    EnsureActiveLocal(dropped.(store := Register(dropped.store, e, o, infos, local)), local, warpOk)
  }

  function RemoveEndpoint(d: Desk, e: Endpoint): Desk {
    var dropped := DropScreens(d, e);
    if ActiveErased(d, e) then EnsureActiveLocal(dropped, false, false) else dropped
  }

  function CloseEndpoint(d: Desk, e: Endpoint): Desk {
    var removed := RemoveEndpoint(d, e);
    removed.(channels := removed.channels - {e}, store := removed.store.(owners := removed.store.owners - {e}))
  }

  /** Startup: attach the capture, then register the host's own screens. */
  function Boot(config: AppConfig, host: Endpoint, o: string, infos: seq<ScreenInfo>): Desk {
    ReplaceScreens(SetCapture(EmptyDesk(EmptyStore(config)), true), host, o, infos, true, false)
  }

  function OwnerOf(machineId: string, e: Endpoint, format: Endpoint -> string): string {
    if machineId == "" then format(e) else machineId
  }

  // ----- The objects -----

  class Server {
    const mScreens: ServerScreenStore
    const mClientSenders: ClientSenders
    const mInput: ServerInputRouter

    ghost function Model(): Desk
      reads mInput, mInput.mScreens, mInput.mScreens.mTopology, mInput.mSenders, mInput.mCapture
    {
      mInput.Model()
    }

    ghost predicate Valid()
      reads this, mInput, mInput.mScreens, mInput.mScreens.mTopology
    {
      mInput.Valid() && mInput.mScreens == mScreens && mInput.mSenders == mClientSenders
    }

    constructor (config: AppConfig, format: Endpoint -> string)
      ensures Valid() && mInput.mCapture == null && mScreens.format == format
      ensures Model() == EmptyDesk(EmptyStore(config))
    {
      var screens := new ServerScreenStore(config, format);
      var senders := new ClientSenders();
      mScreens := screens;
      mClientSenders := senders;
      mInput := new ServerInputRouter(screens, senders);
    }

    /** Startup: attach the initialized capture, then register the host's own screens under its own name. */
    method Start(capture: InputCapture, localEndpoint: Endpoint, screens: seq<ScreenInfo>)
      requires Valid() && Model().store == EmptyStore(mScreens.mConfig) && Model() == EmptyDesk(Model().store)
      requires capture.modes == [] && capture.warps == []
      modifies mInput, mScreens, mScreens.mTopology, mClientSenders, capture
      ensures Valid() && mInput.mCapture == capture
      ensures var config := old(mScreens.mConfig);
              Model() == Boot(config, localEndpoint,
                              DefaultOwnerId(EmptyStore(config), localEndpoint, true, mScreens.format), screens)
    {
      mInput.AttachCapture(capture);
      var ownerId := mScreens.DefaultOwner(localEndpoint, true);
      RegisterScreens(localEndpoint, ownerId, screens, true, false);
    }

    /** One turn of the event pump. */
    method OnCaptured(event: InputEvent, warpOk: bool)
      requires Valid()
      modifies mInput, mInput.mCapture, mClientSenders
      ensures Valid() && mInput.mCapture == old(mInput.mCapture)
      ensures Model() == Handle(old(Model()), event, warpOk)
    {
      mInput.HandleInputEvent(event, warpOk);
    }

    method Stop()
      requires Valid()
      modifies mInput
      ensures Valid() && mInput.mCapture == null
      ensures Model() == SetCapture(old(Model()), false)
    {
      mInput.AttachCapture(null);
    }

    method RegisterScreens(endpoint: Endpoint, ownerId: string, screens: seq<ScreenInfo>, local: bool, warpOk: bool)
      requires Valid()
      modifies mInput, mScreens, mScreens.mTopology, mClientSenders, mInput.mCapture
      ensures Valid() && mInput.mCapture == old(mInput.mCapture)
      ensures Model() == ReplaceScreens(old(Model()), endpoint, ownerId, screens, local, warpOk)
    {
      var activeRemoved := DropEndpointScreens(endpoint);
      NodesGrow(Model().store, endpoint, ownerId, screens, local, |screens|);
      mScreens.RegisterScreens(endpoint, ownerId, screens, local);
      mInput.EnsureActiveLocalScreen(local, warpOk);
    }

    /** The active pointer is cleared right after the nodes it may have pointed at are gone. */
    method DropEndpointScreens(endpoint: Endpoint) returns (activeRemoved: bool)
      requires Valid()
      modifies mInput, mScreens, mScreens.mTopology, mInput.mCapture
      ensures Valid() && mInput.mCapture == old(mInput.mCapture)
      ensures activeRemoved == ActiveErased(old(Model()), endpoint)
      ensures Model() == DropScreens(old(Model()), endpoint)
    {
      activeRemoved := mScreens.RemoveScreen(endpoint, mInput.mActiveScreen);
      if activeRemoved {
        mInput.ClearActiveState();
      }
    }

    method RemoveEndpointScreens(endpoint: Endpoint)
      requires Valid()
      modifies mInput, mScreens, mScreens.mTopology, mClientSenders, mInput.mCapture
      ensures Valid() && mInput.mCapture == old(mInput.mCapture)
      ensures Model() == RemoveEndpoint(old(Model()), endpoint)
    {
      var activeRemoved := DropEndpointScreens(endpoint);
      if activeRemoved {
        mInput.EnsureActiveLocalScreen(false, false);
      }
    }

    method OnClosed(endpoint: Endpoint)
      requires Valid()
      modifies mInput, mScreens, mScreens.mTopology, mClientSenders, mInput.mCapture
      ensures Valid() && mInput.mCapture == old(mInput.mCapture)
      ensures Model() == CloseEndpoint(old(Model()), endpoint)
    {
      RemoveEndpointScreens(endpoint);
      mClientSenders.channels := mClientSenders.channels - {endpoint};
      mScreens.ForgetOwner(endpoint);
    }
  }
}
