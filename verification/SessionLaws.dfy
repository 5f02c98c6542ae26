/** Who a hello makes of a client, and whether it is served. */
module SessionLaws {
  import opened Core
  import opened Config
  import opened Screens
  import opened StoreLaws
  import opened PlacementLaws
  import opened Transport
  import opened Session

  /** The owner behind a hello: its machine id, or, if that is empty, the printed endpoint. */
  ghost predicate OwnerOfHello(owner: string, hello: RpcMessage, printed: string)
    requires hello.HelloMessage?
  {
    && (hello.machineId != "" ==> owner == hello.machineId)
    && (hello.machineId == "" ==> owner == printed)
  }

  /** The list is empty, or an entry has the hello's machine id, or its name; empty ones match nothing. */
  ghost predicate Listed(trusted: seq<TrustedClient>, hello: RpcMessage)
    requires hello.HelloMessage?
  {
    || |trusted| == 0
    || exists i :: 0 <= i < |trusted| &&
         ((hello.machineId != "" && trusted[i].machineId == hello.machineId)
          || (hello.name != "" && trusted[i].name == hello.name))
  }

  /** A first message opens service exactly if it is a hello the list lets in; the owner is taken from it either way. */
  lemma WhoIsServed(config: AppConfig, s: Session, e: Endpoint, m: RpcMessage, format: Endpoint -> string)
    ensures var r := Greet(config, s, e, m, format);
            && r.first == Some(m) && r.writing == s.writing
            && (r.phase == Serving <==> m.HelloMessage? && Listed(config.trustedClients, m))
            && (r.phase != Serving ==> r.phase == Ending)
            && (m.HelloMessage? ==> OwnerOfHello(r.ownerId, m, format(e)))
            && (!m.HelloMessage? ==> r.ownerId == s.ownerId)
  {
    TrustedMeansListed(config.trustedClients, m);
  }

  lemma TrustedMeansListed(trusted: seq<TrustedClient>, m: RpcMessage)
    ensures m.HelloMessage? ==> (IsTrustedClient(trusted, m.machineId, m.name) <==> Listed(trusted, m))
  {
    if m.HelloMessage? && trusted != [] {
      if client :| client in trusted && ((m.machineId != "" && client.machineId == m.machineId)
                                         || (m.name != "" && client.name == m.name)) {
        var i :| 0 <= i < |trusted| && trusted[i] == client;
        assert Listed(trusted, m);
      }
    }
  }

  /** The owner under which an endpoint's hello puts its screens. */
  function OwnerGiven(config: AppConfig, e: Endpoint, hello: RpcMessage, format: Endpoint -> string): string {
    Greet(config, NEW_SESSION, e, hello, format).ownerId
  }

  /** A machine is one owner wherever it connects from and whatever name and version it gives. */
  lemma SameMachineSameOwner(config: AppConfig, e: Endpoint, e': Endpoint, hello: RpcMessage, again: RpcMessage,
                             format: Endpoint -> string)
    requires hello.HelloMessage? && again.HelloMessage? && hello.machineId == again.machineId != ""
    ensures OwnerGiven(config, e, hello, format) == OwnerGiven(config, e', again, format) == hello.machineId
  {
    WhoIsServed(config, NEW_SESSION, e, hello, format);
    WhoIsServed(config, NEW_SESSION, e', again, format);
  }

  /**
   * So a machine that connects, reports, goes away and comes back from another endpoint
   * with the same screens finds the grid and the layout as it left them.
   */
  lemma MachineComesBack(st: Store, e: Endpoint, e': Endpoint, hello: RpcMessage, again: RpcMessage,
                         infos: seq<ScreenInfo>, format: Endpoint -> string)
    requires hello.HelloMessage? && again.HelloMessage? && hello.machineId == again.machineId != ""
    requires StoreOk(st) && OwnerAbsent(st.grid, hello.machineId) && forall n :: n in st.nodes ==> n.screen.endpoint != e
    ensures var once := Register(st, e, OwnerGiven(st.config, e, hello, format), infos, false);
            var left := Remove(once, e);
            var back := Register(left, e', OwnerGiven(left.config, e', again, format), infos, false);
            back.grid == once.grid && back.config == once.config
  {
    hide Register, Greet;
    var once := Register(st, e, hello.machineId, infos, false);
    SameMachineSameOwner(st.config, e, e', hello, again, format);
    SameMachineSameOwner(Remove(once, e).config, e, e', hello, again, format);
    ReconnectRestoresLayout(st, e, e', hello.machineId, infos);
  }
}
