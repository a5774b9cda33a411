/** The state of a NetworkManager as a value, and one function per public
    operation giving the reply and the next state. The class in module
    Network is proved to behave as these functions say. */
module NetworkModel {
  import opened H2HTypes

  /** The calls the facade makes, in order, into collaborators outside the
      model: the connection, the profile manager and the key-manager factory. */
  datatype Effect =
    | CreateMasterPeer                                          // connection.connect()
    | BootstrapTo(address: Option<InetAddress>)                 // connection.connect(address)
    | BootstrapToPort(address: Option<InetAddress>, port: int)  // connection.connect(address, port)
    | ShutDownPeer                                              // connection.disconnect()
    | StopQueueWorker(manager: ProfileManager)
    | NewPublicKeyManager(userId: UserId, keyPair: KeyPair)
  {
    /** One of the three ways of joining the overlay. */
    predicate IsConnectRoute() {
      CreateMasterPeer? || BootstrapTo? || BootstrapToPort?
    }
  }

  /** Everything a NetworkManager's observable behaviour depends on.
      `connected` is the state of the connection collaborator. */
  datatype NetState = NetState(
    nodeId: NodeId,
    dataManager: Option<DataManager>,
    messageManager: Option<MessageManager>,
    connected: bool,
    session: Option<Session>,
    publicKeyManager: Option<PublicKeyManager>,
    effects: seq<Effect>)

  /** The state after a call together with what the call returned. */
  datatype Reply<+T> = Reply(state: NetState, value: T)

  /** How many key managers the effect log shows were built. */
  function KeyManagersCreated(effects: seq<Effect>): nat
  {
    if effects == [] then 0
    else KeyManagersCreated(effects[..|effects| - 1])
         + (if effects[|effects| - 1].NewPublicKeyManager? then 1 else 0)
  }

  lemma KeyManagersCreatedAppend(effects: seq<Effect>, e: Effect)
    ensures KeyManagersCreated(effects + [e])
            == KeyManagersCreated(effects) + (if e.NewPublicKeyManager? then 1 else 0)
  {
    assert (effects + [e])[..|effects|] == effects;
  }

  /** The invariant of every manager: both managers exist and belong to this
      node, and a key manager exists exactly when one was built, which
      happened at most once. */
  ghost predicate Inv(st: NetState)
  {
    && st.dataManager == Some(DataManager(st.nodeId))
    && st.messageManager == Some(MessageManager(st.nodeId))
    && KeyManagersCreated(st.effects) == (if st.publicKeyManager.Some? then 1 else 0)
    && (st.publicKeyManager.Some? ==>
          NewPublicKeyManager(st.publicKeyManager.value.userId, st.publicKeyManager.value.keyPair)
          in st.effects)
  }

  /** A freshly constructed manager. The connection starts out down. */
  function Init(nodeId: NodeId): (st: NetState)
    ensures st.nodeId == nodeId && !st.connected
    ensures st.session.None? && st.publicKeyManager.None? && st.effects == []
    ensures st.dataManager.Some? && st.messageManager.Some?
    ensures Inv(st)
  {
    NetState(nodeId, Some(DataManager(nodeId)), Some(MessageManager(nodeId)), false, None, None, [])
  }

  /** `setSession`: replaces the session (null clears it) and nothing else;
      in particular an existing key manager is kept. */
  function SetSession(st: NetState, session: Option<Session>): (r: NetState)
    ensures r.session == session
    ensures r.publicKeyManager == st.publicKeyManager && r.connected == st.connected
    ensures r.(session := st.session) == st
    ensures Inv(st) ==> Inv(r)
  {
    st.(session := session)
  }

  /** `getSession`: throws exactly when there is no session. */
  function GetSession(st: NetState): (r: Outcome<Session>)
    ensures r.Throw? <==> st.session.None?
    ensures r.Throw? ==> r.error == NoSessionException
    ensures r.Return? ==> st.session == Some(r.value)
  {
    if st.session.None? then Throw(NoSessionException) else Return(st.session.value)
  }

  /** `getUserId`: null without a session, else the session's user id. */
  function GetUserId(st: NetState): (r: Option<UserId>)
    ensures r.None? <==> st.session.None?
    ensures r.Some? ==> r.value == st.session.value.credentials.userId
  {
    if st.session.None? then None else Some(st.session.value.credentials.userId)
  }

  /** The lazy creation shared by both key getters: with a session, build the
      key manager from the session's user id and key pair unless one exists. */
  function WithKeyManager(st: NetState): (r: NetState)
    requires st.session.Some?
    ensures r.publicKeyManager.Some?
    ensures st.publicKeyManager.Some? ==> r == st
    ensures st.publicKeyManager.None? ==>
              && r.publicKeyManager.value
                 == PublicKeyManager(st.session.value.credentials.userId, st.session.value.keyPair)
              && r.effects == st.effects + [NewPublicKeyManager(r.publicKeyManager.value.userId,
                                                                r.publicKeyManager.value.keyPair)]
    ensures r.(publicKeyManager := st.publicKeyManager, effects := st.effects) == st
    ensures Inv(st) ==> Inv(r)
  {
    if st.publicKeyManager.Some? then st
    else
      var s := st.session.value;
      KeyManagersCreatedAppend(st.effects, NewPublicKeyManager(s.credentials.userId, s.keyPair));
      st.(publicKeyManager := Some(PublicKeyManager(s.credentials.userId, s.keyPair)),
          effects := st.effects + [NewPublicKeyManager(s.credentials.userId, s.keyPair)])
  }

  /** `getPrivateKey`: null and no state change without a session; otherwise
      the private key held by the (possibly just built) key manager. */
  function GetPrivateKey(st: NetState): (r: Reply<Option<PrivateKey>>)
    ensures st.session.None? ==> r == Reply(st, None)
    ensures st.session.Some? ==>
              && r.state == WithKeyManager(st)
              && r.value == Some(r.state.publicKeyManager.value.keyPair.privateKey)
    ensures Inv(st) ==> Inv(r.state)
  {
    if st.session.None? then Reply(st, None)
    else
      var next := WithKeyManager(st);
      Reply(next, Some(next.publicKeyManager.value.keyPair.privateKey))
  }

  /** `getPublicKey(userId)`: null and no state change without a session;
      otherwise the key manager's answer for `userId`. That answer is opaque:
      `resolvable` holds the keys it can resolve at the time of the call, and
      any other user id makes it throw GetFailedException. */
  function GetPublicKeyOf(st: NetState, userId: UserId, resolvable: map<UserId, PublicKey>)
    : (r: Reply<Outcome<Option<PublicKey>>>)
    ensures st.session.None? ==> r == Reply(st, Return(None))
    ensures st.session.Some? ==> r.state == WithKeyManager(st)
    ensures st.session.Some? ==> (r.value.Throw? <==> userId !in resolvable)
    ensures r.value.Throw? ==> r.value.error == GetFailedException
    ensures st.session.Some? && userId in resolvable ==> r.value == Return(Some(resolvable[userId]))
    ensures Inv(st) ==> Inv(r.state)
  {
    if st.session.None? then Reply(st, Return(None))
    else
      var next := WithKeyManager(st);
      Reply(next, if userId in resolvable then Return(Some(resolvable[userId]))
                  else Throw(GetFailedException))
  }

  /** `getPublicKey()`: the same lookup for the session's own user id, with a
      GetFailedException turned into null. Without a session the user id is
      null and the lookup returns null before using it. */
  function GetOwnPublicKey(st: NetState, resolvable: map<UserId, PublicKey>)
    : (r: Reply<Option<PublicKey>>)
    ensures st.session.None? ==> r == Reply(st, None)
    ensures st.session.Some? ==> r.state == WithKeyManager(st)
    ensures st.session.Some? ==>
              var me := st.session.value.credentials.userId;
              r.value == if me in resolvable then Some(resolvable[me]) else None
    ensures Inv(st) ==> Inv(r.state)
  {
    match GetUserId(st)
    case None => Reply(st, None)
    case Some(userId) =>
      var reply := GetPublicKeyOf(st, userId, resolvable);
      Reply(reply.state, if reply.value.Throw? then None else reply.value.value)
  }

  /** The one connection route `connect(config)` takes: create the overlay as
      master peer, else bootstrap by address alone when the port is -1, else
      by address and port. */
  function ConnectRoute(config: NetworkConfiguration): (e: Effect)
    ensures e.IsConnectRoute()
    ensures e.CreateMasterPeer? <==> config.isMasterPeer
    ensures e.BootstrapTo? <==> !config.isMasterPeer && config.bootstrapPort == -1
    ensures e.BootstrapToPort? <==> !config.isMasterPeer && config.bootstrapPort != -1
    ensures !e.CreateMasterPeer? ==> e.address == config.bootstrapAddress
    ensures e.BootstrapToPort? ==> e.port == config.bootstrapPort
  {
    if config.isMasterPeer then CreateMasterPeer
    else if config.bootstrapPort == -1 then BootstrapTo(config.bootstrapAddress)
    else BootstrapToPort(config.bootstrapAddress, config.bootstrapPort)
  }

  /** `connect(config)`: takes exactly one route; `linkUp` is whether the
      connection is up afterwards. The route's own boolean result is dropped
      by `connect(config)`, so it does not appear here. */
  function Connect(st: NetState, config: NetworkConfiguration, linkUp: bool): (r: NetState)
    ensures r.effects == st.effects + [ConnectRoute(config)]
    ensures r.connected == linkUp
    ensures r.(connected := st.connected, effects := st.effects) == st
    ensures Inv(st) ==> Inv(r)
  {
    KeyManagersCreatedAppend(st.effects, ConnectRoute(config));
    st.(connected := linkUp, effects := st.effects + [ConnectRoute(config)])
  }

  /** The profile manager whose queue worker a disconnect stops, if any. */
  function WorkerToStop(session: Option<Session>): Option<ProfileManager>
  {
    if session.Some? then session.value.profileManager else None
  }

  /** `disconnect`: nothing when already disconnected; otherwise shut the
      peer down and stop the session's queue worker when there is a session
      with a profile manager. The session is retained. */
  function Disconnect(st: NetState): (r: NetState)
    ensures !r.connected
    ensures !st.connected ==> r == st
    ensures st.connected ==>
              r.effects == st.effects + [ShutDownPeer]
                           + (if WorkerToStop(st.session).Some?
                              then [StopQueueWorker(WorkerToStop(st.session).value)] else [])
    ensures r.(connected := st.connected, effects := st.effects) == st
    ensures Inv(st) ==> Inv(r)
  {
    if !st.connected then st
    else
      var down := st.effects + [ShutDownPeer];
      KeyManagersCreatedAppend(st.effects, ShutDownPeer);
      match WorkerToStop(st.session)
      case None => st.(connected := false, effects := down)
      case Some(manager) =>
        KeyManagersCreatedAppend(down, StopQueueWorker(manager));
        st.(connected := false, effects := down + [StopQueueWorker(manager)])
  }

  /** `getDataManager`: throws NoPeerConnectionException when the connection
      is down (or the manager is null); otherwise returns the manager. */
  function GetDataManager(st: NetState): (r: Outcome<DataManager>)
    ensures r.Throw? ==> r.error == NoPeerConnectionException
    ensures r.Return? ==> st.connected && st.dataManager == Some(r.value)
    ensures Inv(st) ==> (r.Throw? <==> !st.connected)
  {
    if !st.connected || st.dataManager.None? then Throw(NoPeerConnectionException)
    else Return(st.dataManager.value)
  }

  /** `getMessageManager`: the same gate for the message manager. */
  function GetMessageManager(st: NetState): (r: Outcome<MessageManager>)
    ensures r.Throw? ==> r.error == NoPeerConnectionException
    ensures r.Return? ==> st.connected && st.messageManager == Some(r.value)
    ensures Inv(st) ==> (r.Throw? <==> !st.connected)
  {
    if !st.connected || st.messageManager.None? then Throw(NoPeerConnectionException)
    else Return(st.messageManager.value)
  }

  /** Calling `disconnect` twice has the effect of calling it once. */
  lemma DisconnectIdempotent(st: NetState)
    ensures Disconnect(Disconnect(st)) == Disconnect(st)
  {
  }

  /** A disconnect stops a given profile manager's queue worker exactly when
      the node was connected and that manager belongs to the current session. */
  lemma DisconnectStopsWorkerExactly(st: NetState, manager: ProfileManager)
    ensures StopQueueWorker(manager) in Disconnect(st).effects[|st.effects|..]
            <==> st.connected && st.session.Some? && st.session.value.profileManager == Some(manager)
  {
    var added := Disconnect(st).effects[|st.effects|..];
    if st.connected {
      assert added == [ShutDownPeer] + (if WorkerToStop(st.session).Some?
                                        then [StopQueueWorker(WorkerToStop(st.session).value)] else []);
    } else {
      assert added == [];
    }
  }

  /** Without a session neither key getter builds a key manager, and both
      return null. */
  lemma NoSessionNoKeyManager(st: NetState, userId: UserId, resolvable: map<UserId, PublicKey>)
    requires st.session.None?
    ensures GetPrivateKey(st) == Reply(st, None)
    ensures GetPublicKeyOf(st, userId, resolvable) == Reply(st, Return(None))
    ensures GetOwnPublicKey(st, resolvable) == Reply(st, None)
  {
  }

  /** Setting a session never resets the key manager: a key manager built for
      an earlier session keeps answering, with that session's private key,
      after a different session is set. */
  lemma StaleKeyManagerReused(st: NetState, next: Session)
    requires st.publicKeyManager.Some?
    ensures GetPrivateKey(SetSession(st, Some(next)))
            == Reply(SetSession(st, Some(next)), Some(st.publicKeyManager.value.keyPair.privateKey))
  {
  }

  /** A session can be set while disconnected; it is then returned by
      `getSession`, while the data and message managers stay unavailable. */
  lemma SessionIndependentOfConnectivity(st: NetState, s: Session)
    requires Inv(st) && !st.connected
    ensures GetSession(SetSession(st, Some(s))) == Return(s)
    ensures GetDataManager(SetSession(st, Some(s))) == Throw(NoPeerConnectionException)
    ensures GetMessageManager(SetSession(st, Some(s))) == Throw(NoPeerConnectionException)
  {
  }
}
