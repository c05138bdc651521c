/** The server's message handlers as steps at lock granularity. `Receive` takes a message
    through the dispatch table up to the first shared access; each `Advance` is one more
    critical section of the handler that is under way. */
module Handlers {
  import opened Types
  import opened Stores
  import opened Dispatch
  import opened GetReply
  import opened Digest

  /** What a verified Member message says about its sender. */
  datatype Applicant = Applicant(name: string, attrs: uint64, ck: PubKey, sk: PubKey, ends: seq<string>)

  datatype Goal = ForClient(who: Applicant) | ForCluster

  /** Where a session's handler stands. */
  datatype Pc =
    | Ready                              // waiting for a message, or closed
    | Issue(goal: Goal)                  // InsertUniqueNodeID: draw an ID and ask the filter
    | Issuing(id: Bytes, goal: Goal)     // the filter did not know it; insert it
    | Vouch(id: Bytes, who: Applicant)   // the client brought an ID; ContainsID
    | Recheck(id: Bytes, who: Applicant) // unknown; InsertID asks the filter again
    | Vouching(id: Bytes, who: Applicant)// still unknown; insert it
    | Adding(c: Cluster)                 // AddCluster
    | NameCheck(to: nat)                 // AddMember, under the read lock
    | IDCheck(to: nat)                   // AddMember, under the read lock again
    | Appending(to: nat)                 // AddMember, under the write lock
    | Sizing(of: nat)                    // Size, under the read lock
    | Sending(of: nat, size: nat)        // the token loop
    | Panicked                           // the goroutine, and so the server, is gone

  /** One InHandler. The last five fields are history and two local values the theorems
      speak of: the position AddMember gave the client and the size its last Get saw. */
  datatype Sess = Sess(
    entry: int, client: Option<ClientInfo>, cluster: Option<nat>, pc: Pc,
    tag: int, msgIn: Msg, reply: Option<Msg>,
    joinPos: nat, sized: nat, done: seq<int>, heard: nat, said: nat)

  function NewSess(): Sess {
    Sess(HELLO_RCVD, None, None, Ready, 0, Blank(1), None, 0, 0, [], 0, 0)
  }

  function Fail(s: Sess): Sess {
    s.(entry := IN_CLOSED, pc := Ready, reply := Some(Blank(OP_ERROR)), said := s.said + 1)
  }

  function Succeed(s: Sess, exit: int, reply: Msg): Sess {
    s.(entry := exit, pc := Ready, reply := Some(reply), done := s.done + [s.tag], said := s.said + 1)
  }

  // ---------------------------------------------------------------- replies

  function ClusterReply(op: int32, c: Cluster, attrs: uint64): Msg {
    Blank(op).(clusterID := Some(c.id), clusterMaxSize := c.maxSize,
               clusterAttrs := attrs, endPointCount := c.epCount)
  }

  function MembersReply(req: Msg, packed: (Mask, seq<Token>)): Msg {
    Blank(OP_CLUSTER_MEMBERS).(clusterID := req.clusterID, which := packed.0, tokens := packed.1)
  }

  // ---------------------------------------------------------------- receiving a message

  /** Both keys parse and the signature over the canonical fields holds. */
  function Verified(env: Env, t: Token): Option<Applicant> {
    match (env.fromWire(t.commsKey), env.fromWire(t.sigKey))
    case (Some(ck), Some(sk)) =>
      var hash := env.sha1(DigestInput(env, t.name, t.attrs, t.commsKey, t.sigKey, t.myEnds));
      if env.verify(sk, hash, t.digSig) then Some(Applicant(t.name, t.attrs, ck, sk, t.myEnds)) else None
    case _ => None
  }

  /** The cluster a Join asks for. None is where the source goes on with a nil cluster and
      the server dies: an unknown ID (the inner err hides the outer one), an unknown name or
      no cluster at all (the error path logs the nil cluster's ID). */
  function JoinTarget(st: Store, s: Sess): Option<nat> {
    if s.msgIn.clusterID.Some? then
      if s.msgIn.clusterID.value in st.byID then Some(st.byID[s.msgIn.clusterID.value]) else None
    else if s.msgIn.clusterName != "" then
      if s.msgIn.clusterName in st.byName then Some(st.byName[s.msgIn.clusterName]) else None
    else s.cluster
  }

  function Receive(env: Env, st: Store, s: Sess, msg: Msg): Sess
    requires Indexed(st)
  {
    var t := Heard(s, msg);
    if InTable(t.entry, t.tag) then Begin(env, st, t, TABLE[t.entry][t.tag]) else t.(pc := Panicked)
  }

  function Heard(s: Sess, msg: Msg): Sess {
    s.(tag := Op2Tag(msg.op), msgIn := msg, reply := None, heard := s.heard + 1)
  }

  function Begin(env: Env, st: Store, t: Sess, h: Handler): Sess
    requires Indexed(st)
  {
    match h
    case BadCombo => Fail(t)
    case DoClient => ReceiveMember(env, t)
    case DoCreate => ReceiveCreate(st, t)
    case DoJoin => ReceiveJoin(st, t)
    case DoGet => ReceiveGet(st, t)
    case DoBye => Succeed(t, BYE_RCVD, Blank(OP_ACK))
  }

  function ReceiveMember(env: Env, t: Sess): Sess {
    match Verified(env, t.msgIn.memberSpecs)
    case None => Fail(t)
    case Some(who) =>
      match t.msgIn.memberSpecs.id
      case None => t.(pc := Issue(ForClient(who)))
      case Some(id) => if ValidID(id) then t.(pc := Vouch(id, who)) else Fail(t)
  }

  /** An existing cluster answers with its own properties; the session's cluster is not set. */
  function ReceiveCreate(st: Store, t: Sess): Sess
    requires Indexed(st)
  {
    var name := t.msgIn.clusterName;
    if name in st.byName then
      var c := st.clusters[st.byName[name]];
      Succeed(t, CREATE_REQUEST_RCVD, ClusterReply(OP_CREATE_REPLY, c, c.attrs))
    else t.(pc := Issue(ForCluster))
  }

  function ReceiveJoin(st: Store, t: Sess): Sess {
    match JoinTarget(st, t)
    case None => t.(pc := Panicked)
    case Some(c) => t.(pc := NameCheck(c))
  }

  function ReceiveGet(st: Store, t: Sess): Sess {
    var id := t.msgIn.clusterID;
    if id.Some? && id.value in st.byID then t.(pc := Sizing(st.byID[id.value])) else Fail(t)
  }

  // ---------------------------------------------------------------- the critical sections

  function Clamp(size: uint32): uint32 {
    if size < MIN_CLUSTER_SIZE then MIN_CLUSTER_SIZE
    else if size > MAX_CLUSTER_SIZE then MAX_CLUSTER_SIZE else size
  }

  /** NewRegCluster as doCreateMsg calls it: attrs are stored as zero. */
  function Created(msg: Msg, id: Bytes): Cluster {
    NewRegCluster(msg.clusterName, id, 0, Clamp(msg.clusterMaxSize), msg.endPointCount).value
  }

  /** NewClientInfo and the MemberOK reply. */
  function Admitted(env: Env, s: Sess, id: Bytes, who: Applicant): Sess {
    if env.baseOk(who.name, id, who.ck, who.sk) then
      Succeed(s.(client := Some(ClientInfo(who.attrs, Slice(who.ends), BaseNode(who.name, id, who.ck, who.sk)))),
              CLIENT_DETAILS_RCVD,
              Blank(OP_MEMBER_OK).(memberID := id, memberAttrs := who.attrs))
    else Fail(s)
  }

  /** Every cluster position the session holds is in the list, and a session that is
      joining has its client. */
  predicate Refs(st: Store, s: Sess) {
    match s.pc
    case NameCheck(c) => c < |st.clusters| && s.client.Some?
    case IDCheck(c) => c < |st.clusters| && s.client.Some?
    case Appending(c) => c < |st.clusters| && s.client.Some?
    case Sizing(c) => c < |st.clusters|
    case Sending(c, size) => c < |st.clusters| && size <= |st.clusters[c].members| && size <= 64
    case _ => true
  }

  /** One critical section. `draw` is the random ID in case one is drawn. */
  function Advance(env: Env, st: Store, s: Sess, draw: Bytes): (Store, Sess)
    requires Refs(st, s)
  {
    match s.pc
    case Ready => (st, s)
    case Panicked => (st, s)
    case Issue(goal) => (st, if Has(env, st, draw) then s else s.(pc := Issuing(draw, goal)))
    case Issuing(id, goal) => (InsertBits(env, st, id), Issued(env, s, id, goal))
    case Vouch(id, who) => (st, if Has(env, st, id) then Admitted(env, s, id, who) else s.(pc := Recheck(id, who)))
    case Recheck(id, who) => (st, if Has(env, st, id) then Admitted(env, s, id, who) else s.(pc := Vouching(id, who)))
    case Vouching(id, who) => (InsertBits(env, st, id), Admitted(env, s, id, who))
    case Adding(c) => (AddCluster(st, c).0, Added(s, c, AddCluster(st, c).1))
    case NameCheck(c) =>
      (st, if NameFree(st.clusters[c], s.client.value) then s.(pc := IDCheck(c)) else Fail(s))
    case IDCheck(c) => (st, if IDFree(st.clusters[c]) then s.(pc := Appending(c)) else Fail(s))
    case Appending(c) => (WithMember(st, c, s.client.value), Joined(s, c, st.clusters[c]))
    case Sizing(c) =>
      (st, s.(pc := Sending(c, if |st.clusters[c].members| > 64 then 64 else |st.clusters[c].members|)))
    case Sending(c, size) => (st, Sent(env, s, st.clusters[c].members, size))
  }

  function Issued(env: Env, s: Sess, id: Bytes, goal: Goal): Sess {
    match goal
    case ForClient(who) => Admitted(env, s, id, who)
    case ForCluster => s.(pc := Adding(Created(s.msgIn, id)))
  }

  /** The reply echoes the proposed attrs, not the stored ones. */
  function Added(s: Sess, c: Cluster, index: int): Sess {
    if index < 0 then Fail(s)
    else Succeed(s.(cluster := Some(index)), CREATE_REQUEST_RCVD,
                 ClusterReply(OP_CREATE_REPLY, c, s.msgIn.clusterAttrs))
  }

  function Joined(s: Sess, i: nat, c: Cluster): Sess {
    Succeed(s.(cluster := Some(i), joinPos := |c.members|), JOIN_RCVD, ClusterReply(OP_JOIN_REPLY, c, c.attrs))
  }

  function Sent(env: Env, s: Sess, members: seq<ClientInfo>, size: nat): Sess
    requires size <= |members| && size <= 64
  {
    Succeed(s.(sized := size), JOIN_RCVD, MembersReply(s.msgIn, Pack(env, members, s.msgIn.which, size)))
  }
}
