# Hive2Hive NetworkManager, modelled in Dafny

Every Hive2Hive node has one `NetworkManager`. The rest of the application
uses it for three things: to join the peer-to-peer overlay, to reach the data
and message managers, and to get the logged-in user's session and keys. Its
behaviour depends on three pieces of state:

- an optional user session, set and cleared by the login flow;
- a public-key manager, built lazily on the first key request made while a
  session exists;
- whether the connection to the overlay is up.

This project models the facade in four modules:

- `H2HTypes` (`h2h_types.dfy`) holds the values. These are the session (user
  credentials, key pair, optional profile manager), keys, the network
  configuration, opaque handles for the key, data and message managers, and
  `Outcome`. An `Outcome` is what a Java call does: return a value, possibly
  null (`None`), or throw one of `NoSessionException`,
  `NoPeerConnectionException` or `GetFailedException`.
- `NetworkModel` (`network_model.dfy`) holds the manager's state as a value
  (`NetState`) and one function per public operation. Each function gives the
  reply and the next state. Its contract states the gate on the session or the
  connection, the lazy creation, and what stays unchanged. It also preserves
  the invariant `Inv`: both managers exist and belong to the node, and a key
  manager exists exactly when one was built, which happened at most once.
  Calls into collaborators that are not part of the model are recorded in
  order in the effect log `effects`. These are the three connect routes,
  shutting down the peer, stopping a profile manager's queue worker, and
  building a key manager.
- `NetworkTraces` (`network_traces.dfy`) covers every sequence of
  state-changing calls (`Run`). Its lemmas state what holds in every state
  that such a sequence reaches:
  - `getSession` returns the session most recently set;
  - at most one key manager is ever built, and once built it is kept;
  - that key manager comes from a session that was set;
  - the data and message managers are available exactly while connected.
- `Network` (`network_manager.dfy`) holds the class `NetworkManager`. Its
  fields are the ones the Java class updates, and its methods follow the
  Java method bodies. Each public operation is proved to behave as its
  `NetworkModel` function says: `EnsureKeyManager` matches `WithKeyManager`,
  and the others have the same name as their function. `GetNodeId` and the
  three private connect routes (`ConnectAsMaster`, `ConnectTo`,
  `ConnectToPort`) state their effect directly. Every method that changes
  state keeps `Valid()`.

The outcomes of the collaborators are parameters:

- `succeeded` is the boolean a connect route returns.
- `linkUp` is whether the connection is up after a connect route. The two
  are independent parameters because the connection is not modelled.
- `resolvable` is what the key manager can resolve when `getPublicKey(userId)`
  runs. Any other user id makes it throw `GetFailedException`.

The built key manager is identified by the user id and key pair it was built
with. It hands out that pair's private key.

Two behaviours of the code are worth knowing:

- `setSession` (NetworkManager.java:61-63) overwrites the session and never
  resets `publicKeyManager`. A key manager built for an earlier session
  therefore keeps handing out that session's private key after another
  session is set (`StaleKeyManagerReused`, `StaleKeyManagerExample`).
- `disconnect` (NetworkManager.java:174-175) stops the queue worker only
  when there is a session and its profile manager is non-null.

## Model

| member | source | states |
|---|---|---|
| `NetworkModel.Init` | org.hive2hive.core/src/org/hive2hive/core/network/NetworkManager.java:39-44 | a new manager has the given node id, no session, no key manager, no connection, an empty effect log, and both managers present; the invariant holds |
| `Network.NetworkManager.constructor` | org.hive2hive.core/src/org/hive2hive/core/network/NetworkManager.java:39-44 | the constructed object's state is `Init(nodeId)` and it is valid |
| `Network.NetworkManager.GetNodeId` | org.hive2hive.core/src/org/hive2hive/core/network/NetworkManager.java:46-48 | returns the node id of the manager's state |
| `NetworkTraces.ManagersFixedByConstruction` | org.hive2hive.core/src/org/hive2hive/core/network/NetworkManager.java:31-44 | after any sequence of calls, the node id is the one given at construction, and the data and message managers are the ones created then |
| `NetworkTraces.Run` | org.hive2hive.core/src/org/hive2hive/core/network/NetworkManager.java:27-193 | every state reached from construction by any calls satisfies the invariant and keeps the node id |
| `NetworkTraces.Apply` | org.hive2hive.core/src/org/hive2hive/core/network/NetworkManager.java:61-177 | every state-changing call keeps the node id and the invariant; only `setSession` changes the session; an existing key manager is never replaced |
| `NetworkModel.SetSession` | org.hive2hive.core/src/org/hive2hive/core/network/NetworkManager.java:61-63 | the session becomes the given one (null clears it); the key manager, the connection and everything else stay as they were |
| `Network.NetworkManager.SetSession` | org.hive2hive.core/src/org/hive2hive/core/network/NetworkManager.java:61-63 | the new state is `NetworkModel.SetSession` of the old one; validity is kept |
| `NetworkModel.GetSession` | org.hive2hive.core/src/org/hive2hive/core/network/NetworkManager.java:68-72 | throws `NoSessionException` exactly when there is no session, and otherwise returns the session |
| `Network.NetworkManager.GetSession` | org.hive2hive.core/src/org/hive2hive/core/network/NetworkManager.java:68-72 | returns what `NetworkModel.GetSession` gives for the current state, and changes nothing |
| `NetworkTraces.GetSessionReturnsLastSet` | org.hive2hive.core/src/org/hive2hive/core/network/NetworkManager.java:61-72 | after any calls, `getSession` returns the session most recently passed to `setSession`, and throws `NoSessionException` when none was set or the last one set was null |
| `NetworkTraces.SessionWasSet` | org.hive2hive.core/src/org/hive2hive/core/network/NetworkManager.java:61-63 | a session present after any calls was passed to an earlier `setSession` call |
| `NetworkModel.GetUserId` | org.hive2hive.core/src/org/hive2hive/core/network/NetworkManager.java:116-120 | null exactly when there is no session, and otherwise the user id of the session's credentials; it is a pure read of the state |
| `Network.NetworkManager.GetUserId` | org.hive2hive.core/src/org/hive2hive/core/network/NetworkManager.java:116-120 | returns what `NetworkModel.GetUserId` gives for the current state, and changes nothing |
| `NetworkModel.WithKeyManager` | org.hive2hive.core/src/org/hive2hive/core/network/NetworkManager.java:91-93 | with a session, a key manager exists afterwards; an existing one is kept unchanged; otherwise exactly one is built, from the session's user id and key pair, and its creation is logged; nothing else changes; the invariant is kept |
| `Network.NetworkManager.EnsureKeyManager` | org.hive2hive.core/src/org/hive2hive/core/network/NetworkManager.java:107-109 | the new state is `NetworkModel.WithKeyManager` of the old one |
| `NetworkModel.GetPrivateKey` | org.hive2hive.core/src/org/hive2hive/core/network/NetworkManager.java:88-95 | without a session, returns null and changes nothing; with one, ensures the key manager exists and returns the private key it holds; the invariant is kept |
| `Network.NetworkManager.GetPrivateKey` | org.hive2hive.core/src/org/hive2hive/core/network/NetworkManager.java:88-95 | the returned key and the new state are those of `NetworkModel.GetPrivateKey` |
| `NetworkModel.GetPublicKeyOf` | org.hive2hive.core/src/org/hive2hive/core/network/NetworkManager.java:104-111 | without a session, returns null and changes nothing; with one, ensures the key manager exists, then returns the key manager's key for the user, or throws `GetFailedException` exactly when it cannot resolve that user |
| `Network.NetworkManager.GetPublicKeyOf` | org.hive2hive.core/src/org/hive2hive/core/network/NetworkManager.java:104-111 | the outcome and the new state are those of `NetworkModel.GetPublicKeyOf` |
| `NetworkModel.GetOwnPublicKey` | org.hive2hive.core/src/org/hive2hive/core/network/NetworkManager.java:77-83 | without a session, returns null and changes nothing; with one, looks up the session's own user id the same way, and a failed lookup becomes null instead of an exception |
| `Network.NetworkManager.GetOwnPublicKey` | org.hive2hive.core/src/org/hive2hive/core/network/NetworkManager.java:77-83 | the returned key and the new state are those of `NetworkModel.GetOwnPublicKey` |
| `NetworkModel.NoSessionNoKeyManager` | org.hive2hive.core/src/org/hive2hive/core/network/NetworkManager.java:88-111 | without a session all three key getters return null and build no key manager |
| `NetworkTraces.KeyManagerBuiltAtMostOnce` | org.hive2hive.core/src/org/hive2hive/core/network/NetworkManager.java:88-111 | after any calls, at most one key manager has been built, and one exists exactly when one was built |
| `NetworkTraces.KeyManagerKept` | org.hive2hive.core/src/org/hive2hive/core/network/NetworkManager.java:91-94 | once a key manager exists, it is the same one after any later calls |
| `NetworkTraces.KeyManagerFromSetSession` | org.hive2hive.core/src/org/hive2hive/core/network/NetworkManager.java:107-109 | an existing key manager was built from the user id and key pair of a session passed to an earlier `setSession` call |
| `NetworkModel.StaleKeyManagerReused` | org.hive2hive.core/src/org/hive2hive/core/network/NetworkManager.java:61-95 | after a new session is set, `getPrivateKey` keeps using the existing key manager and returns its private key, whatever the new session's key pair |
| `NetworkTraces.StaleKeyManagerExample` | org.hive2hive.core/src/org/hive2hive/core/network/NetworkManager.java:61-95 | after setting alice's session, asking for the private key and then setting bob's session, `getSession` returns bob's session while `getPrivateKey` returns alice's private key, which differs from bob's |
| `NetworkModel.ConnectRoute` | org.hive2hive.core/src/org/hive2hive/core/network/NetworkManager.java:122-131 | exactly one of the three routes is chosen: create the overlay exactly for a master peer, bootstrap by address alone exactly for a non-master peer with port -1, and by address and port otherwise; the configured address and port are the ones passed |
| `NetworkModel.Connect` | org.hive2hive.core/src/org/hive2hive/core/network/NetworkManager.java:122-165 | exactly that one route is called and logged; the connection's state afterwards is the collaborator's outcome `linkUp`; nothing else changes |
| `Network.NetworkManager.Connect` | org.hive2hive.core/src/org/hive2hive/core/network/NetworkManager.java:122-131 | the new state is `NetworkModel.Connect` of the old one |
| `Network.NetworkManager.ConnectAsMaster` | org.hive2hive.core/src/org/hive2hive/core/network/NetworkManager.java:138-140 | calls the connection's create route, returns the connection's answer, and leaves the connection in the state the collaborator reports |
| `Network.NetworkManager.ConnectTo` | org.hive2hive.core/src/org/hive2hive/core/network/NetworkManager.java:149-151 | calls the address-only bootstrap with the given address, returns the connection's answer, and leaves the connection in the state the collaborator reports |
| `Network.NetworkManager.ConnectToPort` | org.hive2hive.core/src/org/hive2hive/core/network/NetworkManager.java:163-165 | calls the address-and-port bootstrap with the given address and port, returns the connection's answer, and leaves the connection in the state the collaborator reports |
| `NetworkModel.Disconnect` | org.hive2hive.core/src/org/hive2hive/core/network/NetworkManager.java:170-177 | afterwards the node is disconnected; when it was already disconnected nothing changes; otherwise the peer is shut down and the queue worker of the session's profile manager, if any, is stopped; the session and key manager are retained |
| `Network.NetworkManager.Disconnect` | org.hive2hive.core/src/org/hive2hive/core/network/NetworkManager.java:170-177 | the new state is `NetworkModel.Disconnect` of the old one |
| `NetworkModel.DisconnectIdempotent` | org.hive2hive.core/src/org/hive2hive/core/network/NetworkManager.java:170-172 | disconnecting twice has the same effect as disconnecting once |
| `NetworkModel.DisconnectStopsWorkerExactly` | org.hive2hive.core/src/org/hive2hive/core/network/NetworkManager.java:173-175 | a disconnect stops a given profile manager's queue worker exactly when the node was connected and that manager belongs to the current session |
| `NetworkModel.GetDataManager` | org.hive2hive.core/src/org/hive2hive/core/network/NetworkManager.java:179-184 | only `NoPeerConnectionException` is thrown; a returned manager is the state's data manager while connected; under the invariant it throws exactly when not connected |
| `Network.NetworkManager.GetDataManager` | org.hive2hive.core/src/org/hive2hive/core/network/NetworkManager.java:179-184 | throws `NoPeerConnectionException` exactly when not connected, and otherwise returns the data manager created at construction |
| `NetworkModel.GetMessageManager` | org.hive2hive.core/src/org/hive2hive/core/network/NetworkManager.java:186-191 | only `NoPeerConnectionException` is thrown; a returned manager is the state's message manager while connected; under the invariant it throws exactly when not connected |
| `Network.NetworkManager.GetMessageManager` | org.hive2hive.core/src/org/hive2hive/core/network/NetworkManager.java:186-191 | throws `NoPeerConnectionException` exactly when not connected, and otherwise returns the message manager created at construction |
| `NetworkTraces.ConnectionGatesManagers` | org.hive2hive.core/src/org/hive2hive/core/network/NetworkManager.java:179-191 | in every reachable state both managers are handed out exactly when connected, and they are the ones created at construction |
| `NetworkModel.SessionIndependentOfConnectivity` | org.hive2hive.core/src/org/hive2hive/core/network/NetworkManager.java:61-72 | a session set while disconnected is returned by `getSession`, while both managers still throw `NoPeerConnectionException` |

## Left out

- The connection object is left out: `getConnection`, `getPeerAddress` and
  the peer it creates and bootstraps
  (NetworkManager.java:50-56, 138-165). The model keeps only whether it is
  up. A newly constructed connection is taken to be down. The `Connection`
  class is not part of this model.
- The connection going down on its own is the trace step `ConnectionLostOp`.
  The facade cannot cause it, but callers holding `getConnection()` can.
- `PublicKeyManager` is not part of this model. Its key fetching, caching and
  de-duplication of concurrent requests are left out. Its answer to
  `getPublicKey(userId)` is the parameter `resolvable`. Its
  `getUsersPrivateKey` returns the private key of the pair it was built with.
- `NetworkModel.GetUserId`, `NetworkModel.GetOwnPublicKey` and
  `Network.NetworkManager.GetPublicKeyOf`: user ids, node ids and key pairs are
  never null in the model. In the code, credentials holding a null user id
  make `getUserId` return null with a session present (NetworkManager.java:119).
  `getPublicKey()` then passes that null on to the key manager
  (NetworkManager.java:79, 110). A caller can also pass null to
  `getPublicKey(userId)` directly. What the key manager does with a null id is
  not shown.
- `Network.NetworkManager.ConnectAsMaster`, `Network.NetworkManager.ConnectTo`
  and `Network.NetworkManager.ConnectToPort`: how a route's boolean result
  relates to the connection's state afterwards is not modelled. Both are
  opaque outcomes of the `Connection` class, which is not part of this model.
  So the model does not say whether a failed route leaves an earlier
  connection up.
- `ProfileManager.stopQueueWorker` is recorded as a `StopQueueWorker` entry
  in the effect log. The profile manager's own state is not modelled.
- The operations of `DataManager` and `MessageManager` are left out: put,
  get, and sending and receiving messages. They are network I/O in classes
  that are not part of this model. The managers are opaque handles.
- Logging (NetworkManager.java:29, 176) is left out. It has no effect on
  behaviour.
- Concurrency is left out. The class has no synchronisation, and the model
  treats calls as happening one at a time.
- `FileAddEvent` is left out. Its constructor only passes its arguments to
  a superclass that is not part of this model.
