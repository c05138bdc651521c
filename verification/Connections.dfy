/** A connection: a server session and the client at its other end. What the client holds
    is always what the server's cluster holds, whatever other connections do. */
module Connections {
  import opened Types
  import opened Stores
  import opened Dispatch
  import opened GetReply
  import opened Handlers
  import opened Sessions
  import opened Clients

  datatype Peer = Foreign | Member(m: Maker)

  datatype Conn = Conn(sess: Sess, peer: Peer)

  // ---------------------------------------------------------------- steps of one connection

  predicate CanSend(c: Conn) {
    c.sess.pc.Ready? && c.peer.Member? && !c.peer.m.waiting && !c.peer.m.stage.Finished?
  }

  /** The client writes its next request, which the server takes up; on a closed connection
      the write or the read after it fails and ends the client. */
  function Send(env: Env, st: Store, c: Conn): Conn
    requires Indexed(st) && CanSend(c)
  {
    if c.sess.entry == IN_CLOSED then c.(peer := Member(c.peer.m.(stage := Finished(false))))
    else
      var m := Prepare(c.peer.m);
      Conn(Receive(env, st, c.sess, Request(m)), Member(m.(waiting := true)))
  }

  predicate CanTake(c: Conn) {
    c.peer.Member? && c.peer.m.waiting && c.sess.reply.Some?
  }

  function Take(env: Env, c: Conn, draw: Bytes): Conn
    requires CanTake(c)
  {
    c.(peer := Member(Absorb(env, c.peer.m, c.sess.reply.value, draw)))
  }

  // ---------------------------------------------------------------- invariant

  function StageTag(m: Maker): int {
    match m.stage
    case ToMember => MEMBER
    case ToCreate => CREATE
    case ToJoin => JOIN
    case ToGet => GET
    case ToBye => BYE
    case Finished(_) => BYE
  }

  /** Where the server's session must stand before the client's next message. */
  function StageEntry(m: Maker): int {
    match m.stage
    case ToMember => HELLO_RCVD
    case ToCreate => CLIENT_DETAILS_RCVD
    case ToJoin => CLIENT_DETAILS_RCVD
    case ToGet => JOIN_RCVD
    case ToBye => if m.kind.Solo? then CLIENT_DETAILS_RCVD else if m.kind.Admin? then CREATE_REQUEST_RCVD else JOIN_RCVD
    case Finished(_) => BYE_RCVD
  }

  /** Client and server agree on where they are in the script. */
  ghost predicate InSync(s: Sess, m: Maker) {
    && m.hello.id == Some(m.selfID)
    && (m.stage.ToCreate? ==> m.kind.Admin?)
    && (m.stage.ToJoin? || m.stage.ToGet? ==> Joins(m.kind))
    && (m.waiting ==> && !m.stage.Finished? && s.msgIn == Request(m) && s.tag == StageTag(m)
                      && (s.reply.None? ==> !s.pc.Ready? && s.entry == StageEntry(m)))
    && (!m.waiting ==> s.pc.Ready? && (s.entry == IN_CLOSED || m.stage == Finished(false) || s.entry == StageEntry(m)))
    && (m.waiting && m.stage.ToBye? ==> s.entry == BYE_RCVD)
    && (m.stage == Finished(true) ==> s.entry == BYE_RCVD)
    && (s.client.Some? ==> s.client.value.base.id == m.selfID)
  }

  /** A filled slot i holds what the i-th member of the client's cluster converts to. */
  ghost predicate SlotOk(env: Env, st: Store, clusterID: Bytes, i: nat, info: MemberInfo) {
    && clusterID in st.byID && st.byID[clusterID] < |st.clusters|
    && i < |st.clusters[st.byID[clusterID]].members|
    && InfoOf(env, st.clusters[st.byID[clusterID]].members[i]) == Some(info)
  }

  ghost predicate SlotsOk(env: Env, st: Store, m: Maker) {
    forall i: nat | i < |m.table| && m.table[i].Some? :: SlotOk(env, st, m.clusterID, i, m.table[i].value)
  }

  predicate Past(m: Maker) {
    Joins(m.kind) && (m.stage.ToGet? || m.stage.ToBye? || m.stage.Finished?)
  }

  /** The client has had the answer to its Join, and has not broken off since. */
  predicate Polled(m: Maker) {
    Joins(m.kind) && (m.stage.ToGet? || m.stage.ToBye? || m.stage == Finished(true))
  }

  /** The client has the cluster's own size, or zero after an Error reply. */
  ghost predicate SizeOk(st: Store, m: Maker) {
    m.maxSize == 0 ||
    (m.clusterID in st.byID && st.byID[m.clusterID] < |st.clusters| && m.maxSize == st.clusters[st.byID[m.clusterID]].maxSize)
  }

  ghost predicate Unused(m: Maker) {
    m.still == {} && forall i | 0 <= i < |m.table| :: m.table[i].None?
  }

  /** The table of a client that has joined: as many slots as the cluster may have members,
      filled exactly where nothing is left to get, with at most 32 Gets spent. */
  ghost predicate TableOk(st: Store, m: Maker) {
    && (!Past(m) ==> Unused(m))
    && (Joins(m.kind) && !Past(m) ==> |m.table| == m.maxSize)
    && (Polled(m) ==>
          && |m.table| == m.maxSize <= 64 && InStep(m.table, m.still) && SizeOk(st, m))
    && m.gets <= MAX_GET && (m.stage.ToGet? ==> m.gets < MAX_GET && m.still != {})
  }

  /** After the self search, which only a bootstrapper may have had to skip, the index is the
      least slot holding the client's own ID. */
  ghost predicate Located(m: Maker) {
    Polled(m) && !m.stage.ToGet? && (m.kind.User? || m.still == {}) && (exists i: nat :: i < |m.table| && m.table[i].Some? && m.table[i].value.id == m.selfID) ==>
      && m.selfIndex < |m.table| && m.table[m.selfIndex].Some? && m.table[m.selfIndex].value.id == m.selfID
      && forall j: nat | j < m.selfIndex :: m.table[j].None? || m.table[j].value.id != m.selfID
  }

  /** A joined session is tied to the cluster its client asked for, and a client that was
      told a size has joined. */
  ghost predicate TiedOk(st: Store, s: Sess, m: Maker) {
    Joins(m.kind) ==>
      && (JOIN in s.done ==> m.clusterID in st.byID && s.cluster == Some(st.byID[m.clusterID]))
      && (Polled(m) && m.maxSize > 0 ==> JOIN in s.done)
  }

  ghost predicate ConnOk(env: Env, st: Store, c: Conn) {
    && SessOk(env, st, c.sess)
    && (c.peer.Member? ==>
          var m := c.peer.m;
          InSync(c.sess, m) && SlotsOk(env, st, m) && TableOk(st, m) && Located(m) && TiedOk(st, c.sess, m))
  }

  // ---------------------------------------------------------------- other connections

  lemma ConnStays(env: Env, a: Store, b: Store, c: Conn)
    requires Grows(a, b) && ConnOk(env, a, c)
    ensures ConnOk(env, b, c)
  {
    SessStays(env, a, b, c.sess);
    if c.peer.Member? {
      MakerStays(env, a, b, c.peer.m);
    }
  }

  lemma MakerStays(env: Env, a: Store, b: Store, m: Maker)
    requires Grows(a, b) && SlotsOk(env, a, m) && TableOk(a, m)
    ensures SlotsOk(env, b, m) && TableOk(b, m)
  {
    if m.clusterID in a.byID && a.byID[m.clusterID] < |a.clusters| {
      var i := a.byID[m.clusterID];
      assert SameCluster(a.clusters[i], b.clusters[i]);
    }
    forall i: nat | i < |m.table| && m.table[i].Some? ensures SlotOk(env, b, m.clusterID, i, m.table[i].value) {
      assert SlotOk(env, a, m.clusterID, i, m.table[i].value);
    }
  }

  // ---------------------------------------------------------------- sending

  /** The client's next message always has its place in the dispatch table: no script ever
      reaches the bad-combination handler. */
  lemma ScriptReaches(s: Sess, m: Maker)
    requires InSync(s, m) && !m.waiting && !m.stage.Finished? && s.entry != IN_CLOSED
    ensures InTable(s.entry, Op2Tag(Request(m).op)) && TABLE[s.entry][Op2Tag(Request(m).op)] != BadCombo
    ensures Op2Tag(Request(m).op) == StageTag(m)
  {
    TableAccess(s.entry, OP_MEMBER);
    TableAccess(s.entry, OP_CREATE);
    TableAccess(s.entry, OP_JOIN);
    TableAccess(s.entry, OP_GET_CLUSTER);
    TableAccess(s.entry, OP_BYE);
  }

  lemma PrepareIsIdle(st: Store, m: Maker)
    requires TableOk(st, m) && (m.stage.ToGet? ==> Joins(m.kind))
    ensures Prepare(m) == m
  {
  }

  lemma ReceiveTouches(env: Env, st: Store, s: Sess, msg: Msg)
    requires Indexed(st)
    ensures var t := Receive(env, st, s, msg);
            && t.msgIn == msg && t.tag == Op2Tag(msg.op) && t.client == s.client && t.cluster == s.cluster
            && (t.reply.None? ==> !t.pc.Ready? && t.entry == s.entry)
            && (t.reply.Some? ==> t.pc.Ready?)
            && (t.entry == s.entry || t.reply.Some?)
  {
  }

  lemma SendKeeps(env: Env, st: Store, c: Conn)
    requires StoreOk(env, st) && ConnOk(env, st, c) && CanSend(c)
    ensures ConnOk(env, st, Send(env, st, c))
  {
    var m := c.peer.m;
    if c.sess.entry != IN_CLOSED {
      PrepareIsIdle(st, m);
      ReceiveKeeps(env, st, c.sess, Request(m));
      SendSync(env, st, c.sess, m);
    }
  }

  lemma SendSync(env: Env, st: Store, s: Sess, m: Maker)
    requires Indexed(st) && InSync(s, m) && TiedOk(st, s, m)
    requires !m.waiting && !m.stage.Finished? && s.pc.Ready? && s.entry != IN_CLOSED
    requires TraceOk(Receive(env, st, s, Request(m)))
    ensures InSync(Receive(env, st, s, Request(m)), m.(waiting := true))
    ensures TiedOk(st, Receive(env, st, s, Request(m)), m)
  {
    ReceiveTouches(env, st, s, Request(m));
    ScriptReaches(s, m);
  }

  // ---------------------------------------------------------------- the server working

  lemma WorkKeeps(env: Env, st: Store, c: Conn, draw: Bytes)
    requires StoreOk(env, st) && ConnOk(env, st, c) && ValidID(draw) && Refs(st, c.sess) && !c.sess.pc.Ready?
    ensures var (st', s') := Advance(env, st, c.sess, draw);
            StoreOk(env, st') && Grows(st, st') && ConnOk(env, st', c.(sess := s'))
  {
    var (st', s') := Advance(env, st, c.sess, draw);
    AdvanceKeeps(env, st, c.sess, draw);
    BusyIsStarted(env, st, c.sess);
    AdvanceTouches(env, st, c.sess, draw);
    if c.peer.Member? {
      MakerStays(env, st, st', c.peer.m);
      WorkSync(env, st, st', c, s');
    }
  }

  lemma WorkSync(env: Env, st: Store, st': Store, c: Conn, s': Sess)
    requires c.peer.Member? && InSync(c.sess, c.peer.m) && TiedOk(st, c.sess, c.peer.m) && Grows(st, st')
    requires !c.sess.pc.Ready? && c.sess.reply.None? && SessOk(env, st', s')
    requires Touches(st, c.sess, s')
    ensures InSync(s', c.peer.m) && TiedOk(st', s', c.peer.m)
  {
  }

  // ---------------------------------------------------------------- taking in a reply

  lemma TakeKeeps(env: Env, st: Store, c: Conn, draw: Bytes)
    requires StoreOk(env, st) && ConnOk(env, st, c) && CanTake(c)
    ensures ConnOk(env, st, Take(env, c, draw))
  {
    var s, m, reply := c.sess, c.peer.m, c.sess.reply.value;
    TakeSync(s, env, m, reply, draw);
    TakeTable(env, st, s, m, draw);
    NextStage(env, m, reply, draw);
    TakeTied(env, st, s, m, draw);
  }

  lemma TakeTied(env: Env, st: Store, s: Sess, m: Maker, draw: Bytes)
    requires ClientOk(env, st, s) && TraceOk(s) && InSync(s, m) && TiedOk(st, s, m) && m.waiting && s.reply.Some?
    ensures TiedOk(st, s, Absorb(env, m, s.reply.value, draw))
  {
    NextStage(env, m, s.reply.value, draw);
    if m.stage.ToJoin? {
      assert Absorb(env, m, s.reply.value, draw).maxSize == s.reply.value.clusterMaxSize;
    }
  }

  lemma TakeTable(env: Env, st: Store, s: Sess, m: Maker, draw: Bytes)
    requires StoreOk(env, st) && InSync(s, m) && ReplyOk(env, st, s) && TraceOk(s)
    requires TableOk(st, m) && SlotsOk(env, st, m) && Located(m) && m.waiting && s.reply.Some?
    ensures var n := Absorb(env, m, s.reply.value, draw);
            SlotsOk(env, st, n) && TableOk(st, n) && Located(n)
  {
    if m.stage.ToJoin? {
      TakeJoinTable(env, st, s, m, draw);
    } else if m.stage.ToGet? {
      TakeMembersTable(env, st, m, s.reply.value);
    } else {
      TakePlainTable(env, st, m, s.reply.value, draw);
    }
  }

  /** Which stage may follow which, and what no reply changes. */
  lemma NextStage(env: Env, m: Maker, reply: Msg, draw: Bytes)
    ensures var n := Absorb(env, m, reply, draw);
            && n.kind == m.kind && n.hello == m.hello && n.selfID == m.selfID && !n.waiting
            && (!m.stage.ToCreate? ==> n.clusterID == m.clusterID)
            && match m.stage
               case ToMember => n.stage == if m.kind.Solo? then ToBye else if m.kind.Admin? then ToCreate else ToJoin
               case ToCreate => n.stage == ToBye || n.stage == Finished(false)
               case ToJoin => n.stage == ToGet || n.stage == ToBye
               case ToGet => n.stage == ToGet || n.stage == ToBye || n.stage == Finished(false)
               case ToBye => n.stage == Finished(true)
               case Finished(_) => n.stage == m.stage
  {
  }

  lemma TakeSync(s: Sess, env: Env, m: Maker, reply: Msg, draw: Bytes)
    requires InSync(s, m) && TraceOk(s) && m.waiting && s.reply == Some(reply) && s.pc.Ready?
    ensures InSync(s, Absorb(env, m, reply, draw))
  {
    NextStage(env, m, reply, draw);
    SyncAfter(s, m, Absorb(env, m, reply, draw));
  }

  lemma SyncAfter(s: Sess, m: Maker, n: Maker)
    requires InSync(s, m) && TraceOk(s) && m.waiting && s.reply.Some? && s.pc.Ready?
    requires n.kind == m.kind && n.hello == m.hello && n.selfID == m.selfID && !n.waiting
    requires match m.stage
             case ToMember => n.stage == if m.kind.Solo? then ToBye else if m.kind.Admin? then ToCreate else ToJoin
             case ToCreate => n.stage == ToBye || n.stage == Finished(false)
             case ToJoin => n.stage == ToGet || n.stage == ToBye
             case ToGet => n.stage == ToGet || n.stage == ToBye || n.stage == Finished(false)
             case ToBye => n.stage == Finished(true)
             case Finished(_) => n.stage == m.stage
    ensures InSync(s, n)
  {
  }

  lemma TakePlainTable(env: Env, st: Store, m: Maker, reply: Msg, draw: Bytes)
    requires TableOk(st, m) && SlotsOk(env, st, m) && Located(m)
    requires !m.stage.ToJoin? && !m.stage.ToGet? && !m.stage.Finished?
    requires m.stage.ToCreate? ==> m.kind.Admin?
    ensures var n := Absorb(env, m, reply, draw);
            SlotsOk(env, st, n) && TableOk(st, n) && Located(n)
  {
    forall i: nat | i < |m.table| && m.table[i].Some? ensures SlotOk(env, st, m.clusterID, i, m.table[i].value) {
    }
  }

  lemma LeaveKeeps(env: Env, st: Store, m: Maker, err: bool)
    requires Joins(m.kind) && SlotsOk(env, st, m) && |m.table| == m.maxSize <= 64 && InStep(m.table, m.still)
    requires SizeOk(st, m) && m.gets <= MAX_GET && (err ==> m.still != {})
    ensures var n := Leave(m, err);
            SlotsOk(env, st, n) && TableOk(st, n) && Located(n)
  {
  }

  lemma TakeJoinTable(env: Env, st: Store, s: Sess, m: Maker, draw: Bytes)
    requires StoreOk(env, st) && InSync(s, m) && ReplyOk(env, st, s) && TraceOk(s) && TableOk(st, m)
    requires m.waiting && s.reply.Some? && m.stage.ToJoin?
    ensures var n := Absorb(env, m, s.reply.value, draw);
            SlotsOk(env, st, n) && TableOk(st, n) && Located(n)
  {
    var reply := s.reply.value;
    assert SizeOk(st, m.(maxSize := reply.clusterMaxSize)) && reply.clusterMaxSize <= 64 by {
      if reply.op != OP_ERROR {
        assert Listed(env, st.bits, st.clusters[st.byID[m.clusterID]]);
      }
    }
    JoinTable(env, st, m.(waiting := false), reply);
  }

  /** Joining gives the client an empty table of the cluster's size. */
  lemma JoinTable(env: Env, st: Store, m: Maker, reply: Msg)
    requires m.stage.ToJoin? && Joins(m.kind) && TableOk(st, m)
    requires SizeOk(st, m.(maxSize := reply.clusterMaxSize)) && reply.clusterMaxSize <= 64
    ensures var n := AbsorbJoin(m, reply);
            && SlotsOk(env, st, n) && TableOk(st, n) && Located(n)
            && |n.table| == n.maxSize == reply.clusterMaxSize && forall i | 0 <= i < |n.table| :: n.table[i].None?
  {
    var m1 := Resize(m, reply);
    var m2 := m1.(still := LowNMap(m1.maxSize), gets := 0, stage := ToGet);
    if m2.still == {} {
      LeaveKeeps(env, st, m2, false);
    }
  }

  lemma TakeMembersTable(env: Env, st: Store, m: Maker, reply: Msg)
    requires TableOk(st, m) && SlotsOk(env, st, m) && m.stage.ToGet? && Joins(m.kind)
    requires reply == Blank(OP_ERROR) || GetTruthful(env, st, Request(m), reply)
    ensures var n := AbsorbMembers(env, m.(waiting := false), reply);
            SlotsOk(env, st, n) && TableOk(st, n) && Located(n)
  {
    if reply == Blank(OP_ERROR) {
      assert Aligned(env, [], {}, []) by {
        RankOfNothing(64);
      }
      MembersTable(env, st, m.(waiting := false), [], reply);
    } else {
      MembersTable(env, st, m.(waiting := false), st.clusters[st.byID[m.clusterID]].members, reply);
    }
  }

  lemma {:induction false} RankOfNothing(n: nat)
    ensures Rank({}, n) == 0
  {
    if n > 0 {
      RankOfNothing(n - 1);
    }
  }

  /** One round: what was filled stays, what comes in is right, and table and mask stay in
      step even when a token does not convert. */
  lemma MembersTable(env: Env, st: Store, m: Maker, members: seq<ClientInfo>, reply: Msg)
    requires m.stage.ToGet? && Joins(m.kind) && TableOk(st, m) && SlotsOk(env, st, m)
    requires Aligned(env, members, reply.which, reply.tokens) && reply.which <= m.still
    requires reply.which != {} ==>
               && m.clusterID in st.byID && st.byID[m.clusterID] < |st.clusters|
               && members == st.clusters[st.byID[m.clusterID]].members
    ensures var n := AbsorbMembers(env, m, reply);
            SlotsOk(env, st, n) && TableOk(st, n) && Located(n)
  {
    RoundKeepsStep(env, members, reply.which, reply.tokens, m.table, m.still);
    var n := Round(env, m, reply);
    assert SlotsOk(env, st, n) by {
      NewSlots(env, st, m, members, reply);
    }
    if LastFailed(env, reply.which, reply.tokens, |m.table|) {
      FailureRemains(env, reply.which, reply.tokens, |m.table|, |m.table|, m.still);
    }
    if n.still == {} || n.gets >= MAX_GET {
      LeaveKeeps(env, st, n, LastFailed(env, reply.which, reply.tokens, |m.table|));
    }
  }

  lemma NewSlots(env: Env, st: Store, m: Maker, members: seq<ClientInfo>, reply: Msg)
    requires SlotsOk(env, st, m) && |m.table| <= 64 && Aligned(env, members, reply.which, reply.tokens)
    requires reply.which != {} ==>
               && m.clusterID in st.byID && st.byID[m.clusterID] < |st.clusters|
               && members == st.clusters[st.byID[m.clusterID]].members
    ensures !Short(reply.which, reply.tokens, |m.table|)
    ensures SlotsOk(env, st, m.(table := Unpack(env, reply.which, reply.tokens, m.table)))
  {
    PackUnpack(env, members, reply.which, reply.tokens, m.table);
    var n := m.(table := Unpack(env, reply.which, reply.tokens, m.table));
    forall i: nat | i < |n.table| && n.table[i].Some?
      ensures SlotOk(env, st, m.clusterID, i, n.table[i].value)
    {
      if i !in reply.which {
        assert n.table[i] == m.table[i];
      }
    }
  }
}
