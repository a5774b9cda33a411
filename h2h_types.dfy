/** Values that flow through the network facade of a Hive2Hive node: the user
    session, key material, the network configuration, and the outcome of a
    Java call (a value, possibly null, or a thrown exception). */
module H2HTypes {

  /** `None` stands for Java's `null`. */
  datatype Option<+T> = None | Some(value: T)

  /** The checked exceptions the facade throws or passes on. */
  datatype Exception =
    | NoSessionException
    | NoPeerConnectionException
    | GetFailedException

  /** What a Java call does: return a value or throw an exception. */
  datatype Outcome<+T> = Return(value: T) | Throw(error: Exception)

  type UserId = string
  type NodeId = string

  datatype PublicKey = PublicKey(encoded: seq<bv8>)
  datatype PrivateKey = PrivateKey(encoded: seq<bv8>)
  datatype KeyPair = KeyPair(publicKey: PublicKey, privateKey: PrivateKey)

  /** Only the user id of the credentials is read by the facade. */
  datatype UserCredentials = UserCredentials(userId: UserId)

  /** Handle of a user's profile manager, which runs a queue worker in the
      background; its behaviour is outside the model. */
  datatype ProfileManager = ProfileManager(handle: nat)

  /** A logged-in user: credentials, key pair and (possibly null) profile manager. */
  datatype Session = Session(
    credentials: UserCredentials,
    keyPair: KeyPair,
    profileManager: Option<ProfileManager>)

  datatype InetAddress = InetAddress(octets: seq<bv8>)

  /** The parts of a network configuration that choose how to connect. A port
      of -1 means "no port given". */
  datatype NetworkConfiguration = NetworkConfiguration(
    isMasterPeer: bool,
    bootstrapAddress: Option<InetAddress>,
    bootstrapPort: int)

  /** The key manager is opaque: what identifies it is the user id and the key
      pair it was built with. */
  datatype PublicKeyManager = PublicKeyManager(userId: UserId, keyPair: KeyPair)

  /** The data and message managers are opaque handles owned by one node. */
  datatype DataManager = DataManager(owner: NodeId)
  datatype MessageManager = MessageManager(owner: NodeId)
}
