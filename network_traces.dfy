/** Every sequence of state-changing calls on one NetworkManager, and what
    holds in every state such a sequence reaches. Read-only calls
    (`getNodeId`, `getSession`, `getUserId`, `getDataManager`,
    `getMessageManager`) leave the state as it is, so they are not steps. */
module NetworkTraces {
  import opened H2HTypes
  import opened NetworkModel

  /** One call that may change the state, with the opaque answers of the
      collaborators it reaches. `ConnectionLostOp` is the connection going
      down on its own, which the facade does not control. */
  datatype Op =
    | SetSessionOp(session: Option<Session>)
    | GetPrivateKeyOp
    | GetPublicKeyOfOp(userId: UserId, resolvable: map<UserId, PublicKey>)
    | GetOwnPublicKeyOp(resolvable: map<UserId, PublicKey>)
    | ConnectOp(config: NetworkConfiguration, linkUp: bool)
    | DisconnectOp
    | ConnectionLostOp

  function Apply(st: NetState, op: Op): (r: NetState)
    ensures r.nodeId == st.nodeId
    ensures !op.SetSessionOp? ==> r.session == st.session
    ensures st.publicKeyManager.Some? ==> r.publicKeyManager == st.publicKeyManager
    ensures st.publicKeyManager.None? && r.publicKeyManager.Some? ==>
              && st.session.Some?
              && r.publicKeyManager.value
                 == PublicKeyManager(st.session.value.credentials.userId, st.session.value.keyPair)
    ensures Inv(st) ==> Inv(r)
  {
    match op
    case SetSessionOp(session) => SetSession(st, session)
    case GetPrivateKeyOp => GetPrivateKey(st).state
    case GetPublicKeyOfOp(userId, resolvable) => GetPublicKeyOf(st, userId, resolvable).state
    case GetOwnPublicKeyOp(resolvable) => GetOwnPublicKey(st, resolvable).state
    case ConnectOp(config, linkUp) => Connect(st, config, linkUp)
    case DisconnectOp => Disconnect(st)
    case ConnectionLostOp => st.(connected := false)
  }

  /** The state reached from construction with `nodeId` by the calls `ops`. */
  function Run(nodeId: NodeId, ops: seq<Op>): (st: NetState)
    ensures Inv(st)
    ensures st.nodeId == nodeId
    decreases |ops|
  {
    if ops == [] then Init(nodeId)
    else Apply(Run(nodeId, ops[..|ops| - 1]), ops[|ops| - 1])
  }

  /** The session most recently passed to `setSession`, or null if none was. */
  function LastSessionSet(ops: seq<Op>): Option<Session>
    decreases |ops|
  {
    if ops == [] then None
    else if ops[|ops| - 1].SetSessionOp? then ops[|ops| - 1].session
    else LastSessionSet(ops[..|ops| - 1])
  }

  /** The key manager a `setSession` call would have built from. */
  predicate SetsSessionMatching(op: Op, manager: PublicKeyManager)
  {
    && op.SetSessionOp? && op.session.Some?
    && op.session.value.credentials.userId == manager.userId
    && op.session.value.keyPair == manager.keyPair
  }

  /** `getSession` throws NoSessionException when no non-null session was
      set last, and otherwise returns the session most recently set. */
  lemma {:induction false} GetSessionReturnsLastSet(nodeId: NodeId, ops: seq<Op>)
    ensures GetSession(Run(nodeId, ops))
            == if LastSessionSet(ops).None? then Throw(NoSessionException)
               else Return(LastSessionSet(ops).value)
    decreases |ops|
  {
    if ops != [] && !ops[|ops| - 1].SetSessionOp? {
      GetSessionReturnsLastSet(nodeId, ops[..|ops| - 1]);
    }
  }

  /** After construction and any calls, `getNodeId` still gives the id the
      manager was built with, and both managers exist and belong to the node. */
  lemma ManagersFixedByConstruction(nodeId: NodeId, ops: seq<Op>)
    ensures Run(nodeId, ops).nodeId == nodeId
    ensures Run(nodeId, ops).dataManager == Some(DataManager(nodeId))
    ensures Run(nodeId, ops).messageManager == Some(MessageManager(nodeId))
  {
  }

  /** In every reachable state the data and message managers are handed out
      exactly when the connection is up, and they are the ones created at
      construction. */
  lemma ConnectionGatesManagers(nodeId: NodeId, ops: seq<Op>)
    ensures GetDataManager(Run(nodeId, ops)).Throw? <==> !Run(nodeId, ops).connected
    ensures GetMessageManager(Run(nodeId, ops)).Throw? <==> !Run(nodeId, ops).connected
    ensures GetDataManager(Run(nodeId, ops)).Return? ==>
              GetDataManager(Run(nodeId, ops)).value == DataManager(nodeId)
    ensures GetMessageManager(Run(nodeId, ops)).Return? ==>
              GetMessageManager(Run(nodeId, ops)).value == MessageManager(nodeId)
  {
  }

  /** In every reachable state at most one key manager has been built, and
      one exists exactly when one was built. */
  lemma KeyManagerBuiltAtMostOnce(nodeId: NodeId, ops: seq<Op>)
    ensures KeyManagersCreated(Run(nodeId, ops).effects) <= 1
    ensures Run(nodeId, ops).publicKeyManager.Some? <==> KeyManagersCreated(Run(nodeId, ops).effects) == 1
  {
  }

  /** Once a key manager exists, every later call keeps that same one. */
  lemma {:induction false} KeyManagerKept(nodeId: NodeId, ops: seq<Op>, later: seq<Op>)
    requires Run(nodeId, ops).publicKeyManager.Some?
    ensures Run(nodeId, ops + later).publicKeyManager == Run(nodeId, ops).publicKeyManager
    decreases |later|
  {
    if later == [] {
      assert ops + later == ops;
    } else {
      var prefix := later[..|later| - 1];
      assert (ops + later)[..|ops + later| - 1] == ops + prefix;
      KeyManagerKept(nodeId, ops, prefix);
    }
  }

  /** A session that is set now was passed to an earlier `setSession` call. */
  lemma {:induction false} SessionWasSet(nodeId: NodeId, ops: seq<Op>)
    ensures Run(nodeId, ops).session.Some? ==>
              exists i :: 0 <= i < |ops| && ops[i] == SetSessionOp(Run(nodeId, ops).session)
    decreases |ops|
  {
    if ops != [] {
      var prefix := ops[..|ops| - 1];
      var last := ops[|ops| - 1];
      if last.SetSessionOp? {
        assert ops[|ops| - 1] == SetSessionOp(Run(nodeId, ops).session);
      } else if Run(nodeId, ops).session.Some? {
        SessionWasSet(nodeId, prefix);
        var i :| 0 <= i < |prefix| && prefix[i] == SetSessionOp(Run(nodeId, prefix).session);
        assert ops[i] == prefix[i];
      }
    }
  }

  /** A key manager, when there is one, was built from the user id and key
      pair of a session passed to an earlier `setSession` call. */
  lemma {:induction false} KeyManagerFromSetSession(nodeId: NodeId, ops: seq<Op>)
    ensures Run(nodeId, ops).publicKeyManager.Some? ==>
              exists i :: 0 <= i < |ops| && SetsSessionMatching(ops[i], Run(nodeId, ops).publicKeyManager.value)
    decreases |ops|
  {
    if ops != [] && Run(nodeId, ops).publicKeyManager.Some? {
      var prefix := ops[..|ops| - 1];
      var before := Run(nodeId, prefix);
      var manager := Run(nodeId, ops).publicKeyManager.value;
      if before.publicKeyManager.Some? {
        KeyManagerFromSetSession(nodeId, prefix);
        var i :| 0 <= i < |prefix| && SetsSessionMatching(prefix[i], manager);
        assert ops[i] == prefix[i];
      } else {
        // the last call built it, from the session current before it
        assert Run(nodeId, ops) == Apply(before, ops[|ops| - 1]);
        assert before.session.Some?;
        SessionWasSet(nodeId, prefix);
        var i :| 0 <= i < |prefix| && prefix[i] == SetSessionOp(before.session);
        assert ops[i] == prefix[i];
        assert SetsSessionMatching(ops[i], manager);
      }
    }
  }

  /** The stale key manager, concretely: after `setSession(alice)`, one
      private-key request and `setSession(bob)`, the private key handed out
      is still alice's, although bob's differs. */
  lemma StaleKeyManagerExample(nodeId: NodeId, alice: Session, bob: Session)
    requires alice.keyPair.privateKey != bob.keyPair.privateKey
    ensures var st := Run(nodeId, [SetSessionOp(Some(alice)), GetPrivateKeyOp, SetSessionOp(Some(bob))]);
            && GetSession(st) == Return(bob)
            && GetPrivateKey(st).value == Some(alice.keyPair.privateKey)
            && GetPrivateKey(st).value != Some(bob.keyPair.privateKey)
  {
    var one := [SetSessionOp(Some(alice))];
    var two := one + [GetPrivateKeyOp];
    var three := two + [SetSessionOp(Some(bob))];
    assert one[..0] == [] && two[..1] == one && three[..2] == two;
    assert Run(nodeId, one) == SetSession(Init(nodeId), Some(alice));
    assert Run(nodeId, two) == GetPrivateKey(Run(nodeId, one)).state;
    assert Run(nodeId, two).publicKeyManager
           == Some(PublicKeyManager(alice.credentials.userId, alice.keyPair));
    assert three == [SetSessionOp(Some(alice)), GetPrivateKeyOp, SetSessionOp(Some(bob))];
  }
}
