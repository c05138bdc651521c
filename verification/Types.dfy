/** The registry's records, and the library calls it makes, as values.

    Everything the registry obtains from another package (RSA keys, SHA1, the Bloom
    filter's hash, node constructors) is a field of `Env`; every lemma of the project
    holds for every `Env`. */
module Types {

  datatype Option<+T> = None | Some(value: T)

  newtype byte = x: int | 0 <= x < 256
  type Bytes = seq<byte>
  type uint32 = x: nat | x < 0x1_0000_0000
  type int32 = x: int | -0x8000_0000 <= x < 0x8000_0000
  type uint64 = x: nat | x < 0x1_0000_0000_0000_0000

  /** A 64-bit map, as the set of its one bits. */
  type Mask = s: set<nat> | forall i :: i in s ==> i < 64

  datatype PubKey = PubKey(modulus: nat, exponent: nat)

  datatype Env = Env(
    keys: Bytes -> set<nat>,                            // Bloom filter positions of an ID
    fromWire: Bytes -> Option<PubKey>,                  // RSAPubKeyFromWire
    toWire: PubKey -> Option<Bytes>,                    // RSAPubKeyToWire
    utf8: string -> Bytes,                              // []byte(s)
    sha1: Bytes -> Bytes,
    verify: (PubKey, Bytes, Bytes) -> bool,             // VerifyPKCS1v15(key, hash, sig)
    baseOk: (string, Bytes, PubKey, PubKey) -> bool,    // NewBaseNode succeeds
    peerOk: (string, Bytes, PubKey, PubKey, seq<string>) -> bool) // endpoints, connectors and NewPeer succeed

  /** Node IDs are 20 or 32 bytes long; anything else is refused by the NodeID constructor. */
  predicate ValidID(id: Bytes) {
    |id| == 20 || |id| == 32
  }

  datatype BaseNode = BaseNode(name: string, id: Bytes, ck: PubKey, sk: PubKey)

  /** `myEnds` is None for a nil slice. */
  datatype ClientInfo = ClientInfo(attrs: uint64, myEnds: Option<seq<string>>, base: BaseNode)

  datatype MemberInfo = MemberInfo(attrs: uint64, name: string, id: Bytes, ck: PubKey, sk: PubKey, ends: seq<string>)

  datatype Token = Token(
    name: string, attrs: uint64, id: Option<Bytes>,
    commsKey: Bytes, sigKey: Bytes, myEnds: seq<string>, digSig: Bytes)

  /** One protocol message. An absent scalar reads as zero, as its getter does. */
  datatype Msg = Msg(
    op: int32, memberSpecs: Token, memberID: Bytes, memberAttrs: uint64,
    clusterID: Option<Bytes>, clusterName: string, clusterMaxSize: uint32,
    clusterAttrs: uint64, endPointCount: uint32, which: Mask, tokens: seq<Token>)

  const OP_MEMBER := 3
  const OP_MEMBER_OK := 4
  const OP_CREATE := 5
  const OP_CREATE_REPLY := 6
  const OP_JOIN := 7
  const OP_JOIN_REPLY := 8
  const OP_GET_CLUSTER := 9
  const OP_CLUSTER_MEMBERS := 10
  const OP_BYE := 11
  const OP_ACK := 12
  const OP_ERROR := 13

  const MIN_CLUSTER_SIZE: uint32 := 2
  const MAX_CLUSTER_SIZE: uint32 := 64

  const NO_TOKEN := Token("", 0, None, [], [], [], [])

  function Blank(op: int32): Msg {
    Msg(op, NO_TOKEN, [], 0, None, "", 0, 0, 0, {}, [])
  }

  function EndsOf(myEnds: Option<seq<string>>): seq<string> {
    if myEnds.None? then [] else myEnds.value
  }

  /** A repeated protobuf field with no entries is read back as nil. */
  function Slice(ends: seq<string>): Option<seq<string>> {
    if ends == [] then None else Some(ends)
  }

  /** ClientInfo.Token. */
  function TokenOf(env: Env, c: ClientInfo): Option<Token> {
    match (env.toWire(c.base.ck), env.toWire(c.base.sk))
    case (Some(ck), Some(sk)) =>
      Some(Token(c.base.name, c.attrs, Some(c.base.id), ck, sk, EndsOf(c.myEnds), []))
    case _ => None
  }

  /** NewMemberInfoFromToken, for a token that carries an ID. */
  function InfoFromToken(env: Env, t: Token): Option<MemberInfo> {
    if t.id.None? || !ValidID(t.id.value) then None else
    match (env.fromWire(t.commsKey), env.fromWire(t.sigKey))
    case (Some(ck), Some(sk)) =>
      if env.peerOk(t.name, t.id.value, ck, sk, t.myEnds)
      then Some(MemberInfo(t.attrs, t.name, t.id.value, ck, sk, t.myEnds))
      else None
    case _ => None
  }

  /** What a client that is sent `c`'s token makes of it. */
  function InfoOf(env: Env, c: ClientInfo): Option<MemberInfo> {
    match TokenOf(env, c)
    case None => None
    case Some(t) => InfoFromToken(env, t)
  }

  datatype Cluster = Cluster(
    name: string, id: Bytes, attrs: uint64, maxSize: uint32, epCount: uint32,
    members: seq<ClientInfo>, byName: map<string, ClientInfo>, byID: map<Bytes, ClientInfo>)

  /** The registry: its ID filter, and its clusters with the two indexes. A cluster
      pointer held in an index is the cluster's position in the list. */
  datatype Store = Store(
    bits: set<nat>, count: nat, clusters: seq<Cluster>,
    byName: map<string, nat>, byID: map<Bytes, nat>)
}
