/** The NetworkManager facade as a class: it establishes the node's
    connection to the overlay, hands out the data and message managers while
    connected, and gives access to the logged-in user's session and keys.
    Each public operation is proved to behave as its NetworkModel function
    says, and every state-changing method keeps the invariant NetworkModel.Inv. */
module Network {
  import opened H2HTypes
  import NetworkModel

  class NetworkManager {
    const nodeId: NodeId
    const messageManager: Option<MessageManager>
    const dataManager: Option<DataManager>

    /** Whether the connection to the overlay is up; the connection object
        itself (peer, bootstrapping, address) is not modelled. */
    var connected: bool
    var session: Option<Session>
    /** Built lazily on the first key request made while a session exists. */
    var publicKeyManager: Option<PublicKeyManager>
    /** The calls made so far into collaborators outside the model. */
    ghost var effects: seq<NetworkModel.Effect>

    ghost function State(): NetworkModel.NetState
      reads this
    {
      NetworkModel.NetState(nodeId, dataManager, messageManager, connected, session,
                            publicKeyManager, effects)
    }

    ghost predicate Valid()
      reads this
    {
      NetworkModel.Inv(State())
    }

    constructor (nodeId: NodeId)
      ensures Valid()
      ensures State() == NetworkModel.Init(nodeId)
    {
      this.nodeId := nodeId;
      connected := false;
      messageManager := Some(MessageManager(nodeId));
      dataManager := Some(DataManager(nodeId));
      session := None;
      publicKeyManager := None;
      effects := [];
    }

    method GetNodeId() returns (id: NodeId)
      ensures id == State().nodeId
    {
      id := nodeId;
    }

    method SetSession(session: Option<Session>)
      requires Valid()
      modifies this
      ensures Valid()
      ensures State() == NetworkModel.SetSession(old(State()), session)
    {
      this.session := session;
    }

    method GetSession() returns (r: Outcome<Session>)
      ensures r == NetworkModel.GetSession(State())
    {
      if session.None? {
        return Throw(NoSessionException);
      }
      return Return(session.value);
    }

    method GetUserId() returns (userId: Option<UserId>)
      ensures userId == NetworkModel.GetUserId(State())
    {
      if session.None? {
        return None;
      }
      return Some(session.value.credentials.userId);
    }

    /** The lazy creation written out in both key getters. */
    method EnsureKeyManager()
      requires Valid() && session.Some?
      modifies this
      ensures Valid()
      ensures State() == NetworkModel.WithKeyManager(old(State()))
    {
      if publicKeyManager.None? {
        var s := session.value;
        publicKeyManager := Some(PublicKeyManager(s.credentials.userId, s.keyPair));
        effects := effects + [NetworkModel.NewPublicKeyManager(s.credentials.userId, s.keyPair)];
      }
    }

    method GetPrivateKey() returns (key: Option<PrivateKey>)
      requires Valid()
      modifies this
      ensures Valid()
      ensures NetworkModel.Reply(State(), key) == NetworkModel.GetPrivateKey(old(State()))
    {
      if session.None? {
        return None;
      }
      EnsureKeyManager();
      key := Some(publicKeyManager.value.keyPair.privateKey);
    }

    /** `getPublicKey(userId)`; `resolvable` stands for what the key manager
        can resolve at the time of the call. */
    method GetPublicKeyOf(userId: UserId, resolvable: map<UserId, PublicKey>)
      returns (r: Outcome<Option<PublicKey>>)
      requires Valid()
      modifies this
      ensures Valid()
      ensures NetworkModel.Reply(State(), r)
              == NetworkModel.GetPublicKeyOf(old(State()), userId, resolvable)
    {
      if session.None? {
        return Return(None);
      }
      EnsureKeyManager();
      if userId in resolvable {
        r := Return(Some(resolvable[userId]));
      } else {
        r := Throw(GetFailedException);
      }
    }

    /** `getPublicKey()`: the own user's key, with a failed lookup as null. */
    method GetOwnPublicKey(resolvable: map<UserId, PublicKey>) returns (key: Option<PublicKey>)
      requires Valid()
      modifies this
      ensures Valid()
      ensures NetworkModel.Reply(State(), key) == NetworkModel.GetOwnPublicKey(old(State()), resolvable)
    {
      var userId := GetUserId();
      if userId.None? {
        // a null user id means there is no session: the lookup returns null
        return None;
      }
      var r := GetPublicKeyOf(userId.value, resolvable);
      if r.Throw? {
        return None;
      }
      key := r.value;
    }

    /** The three private `connect` overloads. Each returns the connection's
        answer, `succeeded`; `linkUp` is the connection's state afterwards.
        The two are separate because the connection is not modelled. */
    method ConnectAsMaster(succeeded: bool, linkUp: bool) returns (ok: bool)
      requires Valid()
      modifies this
      ensures Valid() && ok == succeeded
      ensures State() == old(State()).(connected := linkUp,
                                        effects := old(effects) + [NetworkModel.CreateMasterPeer])
    {
      NetworkModel.KeyManagersCreatedAppend(effects, NetworkModel.CreateMasterPeer);
      effects := effects + [NetworkModel.CreateMasterPeer];
      connected := linkUp;
      ok := succeeded;
    }

    method ConnectTo(address: Option<InetAddress>, succeeded: bool, linkUp: bool) returns (ok: bool)
      requires Valid()
      modifies this
      ensures Valid() && ok == succeeded
      ensures State() == old(State()).(connected := linkUp,
                                        effects := old(effects) + [NetworkModel.BootstrapTo(address)])
    {
      NetworkModel.KeyManagersCreatedAppend(effects, NetworkModel.BootstrapTo(address));
      effects := effects + [NetworkModel.BootstrapTo(address)];
      connected := linkUp;
      ok := succeeded;
    }

    method ConnectToPort(address: Option<InetAddress>, port: int, succeeded: bool, linkUp: bool) returns (ok: bool)
      requires Valid()
      modifies this
      ensures Valid() && ok == succeeded
      ensures State() == old(State()).(connected := linkUp,
                                        effects := old(effects) + [NetworkModel.BootstrapToPort(address, port)])
    {
      NetworkModel.KeyManagersCreatedAppend(effects, NetworkModel.BootstrapToPort(address, port));
      effects := effects + [NetworkModel.BootstrapToPort(address, port)];
      connected := linkUp;
      ok := succeeded;
    }

    /** `connect(config)`: the result of the chosen route, `succeeded`, is
        dropped. */
    method Connect(config: NetworkConfiguration, succeeded: bool, linkUp: bool)
      requires Valid()
      modifies this
      ensures Valid()
      ensures State() == NetworkModel.Connect(old(State()), config, linkUp)
    {
      if config.isMasterPeer {
        var _ := ConnectAsMaster(succeeded, linkUp);
      } else if config.bootstrapPort == -1 {
        var _ := ConnectTo(config.bootstrapAddress, succeeded, linkUp);
      } else {
        var _ := ConnectToPort(config.bootstrapAddress, config.bootstrapPort, succeeded, linkUp);
      }
    }

    method Disconnect()
      requires Valid()
      modifies this
      ensures Valid()
      ensures State() == NetworkModel.Disconnect(old(State()))
    {
      if !connected {
        return;
      }
      NetworkModel.KeyManagersCreatedAppend(effects, NetworkModel.ShutDownPeer);
      effects := effects + [NetworkModel.ShutDownPeer];
      connected := false;
      if session.Some? && session.value.profileManager.Some? {
        var manager := session.value.profileManager.value;
        NetworkModel.KeyManagersCreatedAppend(effects, NetworkModel.StopQueueWorker(manager));
        effects := effects + [NetworkModel.StopQueueWorker(manager)];
      }
    }

    method GetDataManager() returns (r: Outcome<DataManager>)
      requires Valid()
      ensures r == NetworkModel.GetDataManager(State())
      ensures r.Throw? <==> !connected
      ensures r.Throw? ==> r.error == NoPeerConnectionException
      ensures r.Return? ==> r.value == DataManager(nodeId)
    {
      if !connected || dataManager.None? {
        return Throw(NoPeerConnectionException);
      }
      return Return(dataManager.value);
    }

    method GetMessageManager() returns (r: Outcome<MessageManager>)
      requires Valid()
      ensures r == NetworkModel.GetMessageManager(State())
      ensures r.Throw? <==> !connected
      ensures r.Throw? ==> r.error == NoPeerConnectionException
      ensures r.Return? ==> r.value == MessageManager(nodeId)
    {
      if !connected || messageManager.None? {
        return Throw(NoPeerConnectionException);
      }
      return Return(messageManager.value);
    }
  }
}
