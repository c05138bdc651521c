/** What every step of a session keeps, and what stays true of it while others run. */
module Sessions {
  import opened Types
  import opened Stores
  import opened Dispatch
  import opened GetReply
  import opened Handlers

  /** The reply op that answers a request column. */
  function Partner(tag: int): int {
    2 * tag + 4
  }

  ghost predicate Describes(reply: Msg, c: Cluster) {
    reply.clusterID == Some(c.id) && reply.clusterMaxSize == c.maxSize && reply.endPointCount == c.epCount
  }

  /** A reply tells the truth about the request's cluster, in this and every later state. */
  ghost predicate Truthful(env: Env, st: Store, tag: int, req: Msg, reply: Msg) {
    reply.op == OP_ERROR ||
    (&& 0 <= tag <= 4 && reply.op == Partner(tag)
     && (tag == MEMBER ==> ValidID(reply.memberID) && Has(env, st, reply.memberID)
                           && (req.memberSpecs.id.Some? ==> reply.memberID == req.memberSpecs.id.value))
     && (tag == CREATE ==> var n := EffectiveName(req.clusterName);
                           n in st.byName && st.byName[n] < |st.clusters| && Describes(reply, st.clusters[st.byName[n]]))
     && (tag == JOIN ==> && reply.clusterID.Some? && reply.clusterID.value in st.byID
                         && st.byID[reply.clusterID.value] < |st.clusters|
                         && Describes(reply, st.clusters[st.byID[reply.clusterID.value]])
                         && (req.clusterID.Some? ==> reply.clusterID == req.clusterID)
                         && (req.clusterID.None? && req.clusterName != "" ==>
                               req.clusterName in st.byName && st.byName[req.clusterName] == st.byID[reply.clusterID.value]))
     && (tag == GET ==> GetTruthful(env, st, req, reply)))
  }

  ghost predicate GetTruthful(env: Env, st: Store, req: Msg, reply: Msg) {
    && req.clusterID.Some? && req.clusterID.value in st.byID
    && st.byID[req.clusterID.value] < |st.clusters|
    && reply.which <= req.which
    && Aligned(env, st.clusters[st.byID[req.clusterID.value]].members, reply.which, reply.tokens)
  }

  lemma TruthfulStays(env: Env, a: Store, b: Store, tag: int, req: Msg, reply: Msg)
    requires Grows(a, b) && Truthful(env, a, tag, req, reply)
    ensures Truthful(env, b, tag, req, reply)
  {
    if reply.op != OP_ERROR && tag == GET {
      var c := a.byID[req.clusterID.value];
      assert SameCluster(a.clusters[c], b.clusters[c]);
    }
  }

  // ---------------------------------------------------------------- the handler under way

  /** The handler under way is the one the table gives for this state and message. */
  predicate Runs(s: Sess, h: Handler) {
    Reaches(s.entry, s.tag, h)
  }

  ghost predicate PcOk(env: Env, st: Store, s: Sess) {
    match s.pc
    case Ready => true
    case Panicked => true
    case Issue(ForClient(_)) => Runs(s, DoClient) && s.msgIn.memberSpecs.id.None?
    case Issuing(id, ForClient(_)) => Runs(s, DoClient) && ValidID(id) && s.msgIn.memberSpecs.id.None?
    case Issue(ForCluster) => Runs(s, DoCreate)
    case Issuing(id, ForCluster) => Runs(s, DoCreate) && ValidID(id)
    case Vouch(id, _) => Runs(s, DoClient) && ValidID(id) && s.msgIn.memberSpecs.id == Some(id)
    case Recheck(id, _) => Runs(s, DoClient) && ValidID(id) && s.msgIn.memberSpecs.id == Some(id)
    case Vouching(id, _) => Runs(s, DoClient) && ValidID(id) && s.msgIn.memberSpecs.id == Some(id)
    case Adding(c) => Runs(s, DoCreate) && ValidID(c.id) && c == Created(s.msgIn, c.id) && Has(env, st, c.id)
    case NameCheck(c) => Runs(s, DoJoin) && JoinOf(st, s, c)
    case IDCheck(c) => Runs(s, DoJoin) && JoinOf(st, s, c)
    case Appending(c) => Runs(s, DoJoin) && JoinOf(st, s, c)
    case Sizing(c) => Runs(s, DoGet) && GetOf(st, s, c)
    case Sending(c, size) => Runs(s, DoGet) && GetOf(st, s, c) && size <= |st.clusters[c].members| && size <= 64
  }

  ghost predicate JoinOf(st: Store, s: Sess, c: nat) {
    && c < |st.clusters|
    && (s.msgIn.clusterID.Some? ==>
          s.msgIn.clusterID.value in st.byID && st.byID[s.msgIn.clusterID.value] == c)
    && (s.msgIn.clusterID.None? && s.msgIn.clusterName != "" ==>
          s.msgIn.clusterName in st.byName && st.byName[s.msgIn.clusterName] == c)
  }

  ghost predicate GetOf(st: Store, s: Sess, c: nat) {
    && c < |st.clusters|
    && s.msgIn.clusterID.Some? && s.msgIn.clusterID.value in st.byID
    && st.byID[s.msgIn.clusterID.value] == c
  }

  // ---------------------------------------------------------------- the session between messages

  /** The client is known from MemberOK on; once it has joined, its position holds it. */
  ghost predicate ClientOk(env: Env, st: Store, s: Sess) {
    && (CLIENT_DETAILS_RCVD <= s.entry <= JOIN_RCVD ==> s.client.Some?)
    && (s.client.Some? ==> Has(env, st, s.client.value.base.id))
    && (s.cluster.Some? ==> s.cluster.value < |st.clusters|)
    && (s.entry == JOIN_RCVD ==> JOIN in s.done)
    && (JOIN in s.done ==>
          && s.entry >= JOIN_RCVD && s.client.Some? && s.cluster.Some?
          && s.joinPos < |st.clusters[s.cluster.value].members|
          && st.clusters[s.cluster.value].members[s.joinPos] == s.client.value)
  }

  /** A Get reply is the packing of the members its Size call counted. */
  ghost predicate ReplyOk(env: Env, st: Store, s: Sess) {
    s.reply.Some? ==>
      && s.pc.Ready?
      && Truthful(env, st, s.tag, s.msgIn, s.reply.value)
      && (s.reply.value.op == OP_CLUSTER_MEMBERS ==>
            && GetTruthful(env, st, s.msgIn, s.reply.value)
            && var ms := st.clusters[st.byID[s.msgIn.clusterID.value]].members;
               s.sized <= |ms| && s.sized <= 64
               && s.reply.value == MembersReply(s.msgIn, Pack(env, ms, s.msgIn.which, s.sized)))
  }

  /** The successful messages so far are in the language and lead to this state, and every
      message but one under way has had exactly one reply. */
  ghost predicate TraceOk(s: Sess) {
    && HELLO_RCVD <= s.entry <= IN_CLOSED
    && StateAfter(s.done).Some?
    && (s.entry != IN_CLOSED ==> StateAfter(s.done) == Some(s.entry))
    && s.heard == s.said + (if s.pc.Ready? then 0 else 1)
    && (s.heard > 0 && s.pc.Ready? ==> s.reply.Some?)
    && (s.reply.Some? ==> (s.reply.value.op == OP_ERROR <==> s.entry == IN_CLOSED))
    && (s.entry == IN_CLOSED ==> s.reply == Some(Blank(OP_ERROR)))
    && (s.reply.Some? && s.entry != IN_CLOSED ==> 0 <= s.tag <= 4 && s.entry == Exits(s.tag))
  }

  /** The state after a successful message of each column. */
  function Exits(tag: int): int {
    if tag == MEMBER then CLIENT_DETAILS_RCVD
    else if tag == CREATE then CREATE_REQUEST_RCVD
    else if tag == BYE then BYE_RCVD else JOIN_RCVD
  }

  ghost predicate SessOk(env: Env, st: Store, s: Sess) {
    PcOk(env, st, s) && ClientOk(env, st, s) && ReplyOk(env, st, s) && TraceOk(s)
  }

  lemma FreshSession(env: Env, st: Store)
    ensures SessOk(env, st, NewSess())
  {
  }

  /** What others do never disturbs a session. */
  lemma SessStays(env: Env, a: Store, b: Store, s: Sess)
    requires Grows(a, b) && SessOk(env, a, s)
    ensures SessOk(env, b, s)
  {
    assert PcOk(env, b, s) by {
      if s.pc.Sending? {
        assert SameCluster(a.clusters[s.pc.of], b.clusters[s.pc.of]);
      }
    }
    assert ClientOk(env, b, s) by {
      if s.cluster.Some? {
        assert SameCluster(a.clusters[s.cluster.value], b.clusters[s.cluster.value]);
      }
    }
    ReplyStays(env, a, b, s);
  }

  lemma ReplyStays(env: Env, a: Store, b: Store, s: Sess)
    requires Grows(a, b) && ReplyOk(env, a, s)
    ensures ReplyOk(env, b, s)
  {
    if s.reply.Some? {
      TruthfulStays(env, a, b, s.tag, s.msgIn, s.reply.value);
      if s.reply.value.op == OP_CLUSTER_MEMBERS {
        var c := a.byID[s.msgIn.clusterID.value];
        assert SameCluster(a.clusters[c], b.clusters[c]);
        PackStable(env, a.clusters[c].members, b.clusters[c].members, s.msgIn.which, s.sized);
      }
    }
  }

  // ---------------------------------------------------------------- a handler under way

  /** Everything but its pc, for a session whose handler is under way. */
  ghost predicate Started(env: Env, st: Store, s: Sess) {
    && ClientOk(env, st, s) && s.reply.None?
    && StateAfter(s.done) == Some(s.entry) && HELLO_RCVD <= s.entry <= BYE_RCVD
    && s.heard == s.said + 1
  }

  lemma BusyIsStarted(env: Env, st: Store, s: Sess)
    requires SessOk(env, st, s) && !s.pc.Ready?
    ensures Started(env, st, s)
  {
  }

  lemma StartedStays(env: Env, a: Store, b: Store, s: Sess)
    requires Grows(a, b) && Started(env, a, s)
    ensures Started(env, b, s)
  {
    if s.cluster.Some? {
      assert SameCluster(a.clusters[s.cluster.value], b.clusters[s.cluster.value]);
    }
  }

  lemma FailKeeps(env: Env, st: Store, s: Sess)
    requires Started(env, st, s)
    ensures SessOk(env, st, Fail(s))
  {
  }

  /** Any handler that succeeds leaves the session in the state its table entry says. */
  lemma SucceedKeeps(env: Env, st: Store, s: Sess, h: Handler, reply: Msg)
    requires Started(env, st, s) && Runs(s, h) && h != BadCombo
    requires Truthful(env, st, s.tag, s.msgIn, reply) && reply.op != OP_ERROR && reply.op != OP_CLUSTER_MEMBERS
    requires ClientOk(env, st, s.(entry := ExitState(h), done := s.done + [s.tag]))
    ensures SessOk(env, st, Succeed(s, ExitState(h), reply))
  {
    SucceedTrace(s, h, reply);
    SucceedClient(env, st, s, ExitState(h), reply);
  }

  lemma SucceedTrace(s: Sess, h: Handler, reply: Msg)
    requires StateAfter(s.done) == Some(s.entry) && s.heard == s.said + 1 && Runs(s, h) && h != BadCombo
    requires reply.op != OP_ERROR
    ensures TraceOk(Succeed(s, ExitState(h), reply))
  {
    SnocReaches(s.done, s.tag, s.entry, h);
  }

  lemma SucceedClient(env: Env, st: Store, s: Sess, exit: int, reply: Msg)
    requires ClientOk(env, st, s.(entry := exit, done := s.done + [s.tag]))
    ensures ClientOk(env, st, Succeed(s, exit, reply))
  {
  }

  // ---------------------------------------------------------------- Receive

  lemma ReceiveKeeps(env: Env, st: Store, s: Sess, msg: Msg)
    requires StoreOk(env, st) && SessOk(env, st, s) && s.pc.Ready? && s.entry != IN_CLOSED
    ensures SessOk(env, st, Receive(env, st, s, msg))
  {
    var t := Heard(s, msg);
    StartsOk(env, st, s, msg);
    if InTable(t.entry, t.tag) {
      TableReaches(t.entry, t.tag);
      BeginKeeps(env, st, t, TABLE[t.entry][t.tag]);
    } else {
      PanicKeeps(env, st, t);
    }
  }

  lemma StartsOk(env: Env, st: Store, s: Sess, msg: Msg)
    requires SessOk(env, st, s) && s.pc.Ready? && s.entry != IN_CLOSED
    ensures Started(env, st, Heard(s, msg))
  {
  }

  lemma PanicKeeps(env: Env, st: Store, t: Sess)
    requires Started(env, st, t)
    ensures SessOk(env, st, t.(pc := Panicked))
  {
  }

  lemma BeginKeeps(env: Env, st: Store, t: Sess, h: Handler)
    requires StoreOk(env, st) && Started(env, st, t) && Runs(t, h)
    ensures SessOk(env, st, Begin(env, st, t, h))
  {
    match h
    case BadCombo => FailKeeps(env, st, t);
    case DoClient => ReceiveMemberKeeps(env, st, t);
    case DoCreate => ReceiveCreateKeeps(env, st, t);
    case DoJoin => ReceiveJoinKeeps(env, st, t);
    case DoGet => ReceiveGetKeeps(env, st, t);
    case DoBye => SucceedKeeps(env, st, t, DoBye, Blank(OP_ACK));
  }

  lemma ReceiveMemberKeeps(env: Env, st: Store, t: Sess)
    requires Started(env, st, t) && Runs(t, DoClient)
    ensures SessOk(env, st, ReceiveMember(env, t))
  {
    FailKeeps(env, st, t);
  }

  lemma ReceiveGetKeeps(env: Env, st: Store, t: Sess)
    requires StoreOk(env, st) && Started(env, st, t) && Runs(t, DoGet)
    ensures SessOk(env, st, ReceiveGet(st, t))
  {
    FailKeeps(env, st, t);
  }

  lemma ReceiveCreateKeeps(env: Env, st: Store, t: Sess)
    requires StoreOk(env, st) && Started(env, st, t) && Runs(t, DoCreate)
    ensures SessOk(env, st, ReceiveCreate(st, t))
  {
    var name := t.msgIn.clusterName;
    if name in st.byName {
      var c := st.clusters[st.byName[name]];
      assert Listed(env, st.bits, c);
      SucceedKeeps(env, st, t, DoCreate, ClusterReply(OP_CREATE_REPLY, c, c.attrs));
    }
  }

  lemma ReceiveJoinKeeps(env: Env, st: Store, t: Sess)
    requires StoreOk(env, st) && Started(env, st, t) && Runs(t, DoJoin)
    ensures SessOk(env, st, ReceiveJoin(st, t))
  {
  }

  // ---------------------------------------------------------------- Advance

  lemma AdmittedKeeps(env: Env, st: Store, s: Sess, id: Bytes, who: Applicant)
    requires Started(env, st, s) && Runs(s, DoClient) && ValidID(id) && Has(env, st, id)
    requires s.msgIn.memberSpecs.id.Some? ==> s.msgIn.memberSpecs.id.value == id
    ensures SessOk(env, st, Admitted(env, s, id, who))
  {
    if env.baseOk(who.name, id, who.ck, who.sk) {
      var c := ClientInfo(who.attrs, Slice(who.ends), BaseNode(who.name, id, who.ck, who.sk));
      SucceedKeeps(env, st, s.(client := Some(c)), DoClient, Blank(OP_MEMBER_OK).(memberID := id, memberAttrs := who.attrs));
    } else {
      FailKeeps(env, st, s);
    }
  }

  /** Every critical section keeps the stores and its session, and the stores only grow. */
  lemma AdvanceKeeps(env: Env, st: Store, s: Sess, draw: Bytes)
    requires StoreOk(env, st) && SessOk(env, st, s) && ValidID(draw) && Refs(st, s)
    ensures var (st', s') := Advance(env, st, s, draw);
            StoreOk(env, st') && Grows(st, st') && SessOk(env, st', s')
  {
    if !s.pc.Ready? {
      BusyIsStarted(env, st, s);
    }
    match s.pc
    case Issuing(id, goal) => IssuedKeeps(env, st, s, id, goal);
    case Vouching(id, who) => VouchedKeeps(env, st, s, id, who);
    case Adding(c) => AddedKeeps(env, st, s, c);
    case Appending(c) => JoinedKeeps(env, st, s, c);
    case _ => ReadingKeeps(env, st, s, draw);
  }

  ghost predicate Reads(env: Env, st: Store, s: Sess, draw: Bytes)
    requires Refs(st, s)
  {
    Advance(env, st, s, draw).0 == st && SessOk(env, st, Advance(env, st, s, draw).1)
  }

  lemma ReadingKeeps(env: Env, st: Store, s: Sess, draw: Bytes)
    requires SessOk(env, st, s) && ValidID(draw) && Refs(st, s)
    requires !s.pc.Issuing? && !s.pc.Vouching? && !s.pc.Adding? && !s.pc.Appending?
    ensures Reads(env, st, s, draw)
  {
    if !s.pc.Ready? && !s.pc.Panicked? {
      BusyIsStarted(env, st, s);
      if s.pc.Issue? || s.pc.Vouch? || s.pc.Recheck? {
        IDReading(env, st, s, draw);
      } else if s.pc.NameCheck? || s.pc.IDCheck? {
        JoinReading(env, st, s, draw);
      } else {
        GetReading(env, st, s, draw);
      }
    }
  }

  lemma IDReading(env: Env, st: Store, s: Sess, draw: Bytes)
    requires Started(env, st, s) && PcOk(env, st, s) && Refs(st, s) && ValidID(draw)
    requires s.pc.Issue? || s.pc.Vouch? || s.pc.Recheck?
    ensures Reads(env, st, s, draw)
  {
    match s.pc
    case Issue(goal) =>
      PcKeeps(env, st, s, s.pc);
      PcKeeps(env, st, s, Issuing(draw, goal));
    case Vouch(id, who) => KnownKeeps(env, st, s, id, who, s.(pc := Recheck(id, who)));
    case Recheck(id, who) => KnownKeeps(env, st, s, id, who, s.(pc := Vouching(id, who)));
  }

  lemma JoinReading(env: Env, st: Store, s: Sess, draw: Bytes)
    requires Started(env, st, s) && PcOk(env, st, s) && Refs(st, s) && (s.pc.NameCheck? || s.pc.IDCheck?)
    ensures Reads(env, st, s, draw)
  {
    FailKeeps(env, st, s);
    PcKeeps(env, st, s, if s.pc.NameCheck? then IDCheck(s.pc.to) else Appending(s.pc.to));
  }

  lemma GetReading(env: Env, st: Store, s: Sess, draw: Bytes)
    requires Started(env, st, s) && PcOk(env, st, s) && Refs(st, s) && (s.pc.Sizing? || s.pc.Sending?)
    ensures Reads(env, st, s, draw)
  {
    if s.pc.Sizing? {
      PcKeeps(env, st, s, Advance(env, st, s, draw).1.pc);
    } else {
      SentKeeps(env, st, s, s.pc.of, s.pc.size);
    }
  }

  /** A section that only moves on. */
  lemma PcKeeps(env: Env, st: Store, s: Sess, pc: Pc)
    requires Started(env, st, s) && !pc.Ready? && PcOk(env, st, s.(pc := pc))
    ensures SessOk(env, st, s.(pc := pc))
  {
  }

  /** A check of an ID the client brought: admitted if known, otherwise on to `t`. */
  lemma KnownKeeps(env: Env, st: Store, s: Sess, id: Bytes, who: Applicant, t: Sess)
    requires Started(env, st, s) && Runs(s, DoClient) && ValidID(id) && s.msgIn.memberSpecs.id == Some(id)
    requires t == s.(pc := Recheck(id, who)) || t == s.(pc := Vouching(id, who))
    ensures SessOk(env, st, if Has(env, st, id) then Admitted(env, s, id, who) else t)
  {
    if Has(env, st, id) {
      AdmittedKeeps(env, st, s, id, who);
    }
  }

  lemma IssuedKeeps(env: Env, st: Store, s: Sess, id: Bytes, goal: Goal)
    requires StoreOk(env, st) && Started(env, st, s) && s.pc == Issuing(id, goal) && PcOk(env, st, s)
    ensures var st' := InsertBits(env, st, id);
            StoreOk(env, st') && Grows(st, st') && SessOk(env, st', Issued(env, s, id, goal))
  {
    InsertKeeps(env, st, id);
    var st' := InsertBits(env, st, id);
    StartedStays(env, st, st', s);
    if goal.ForClient? {
      AdmittedKeeps(env, st', s, id, goal.who);
    }
  }

  lemma VouchedKeeps(env: Env, st: Store, s: Sess, id: Bytes, who: Applicant)
    requires StoreOk(env, st) && Started(env, st, s) && s.pc == Vouching(id, who) && PcOk(env, st, s)
    ensures var st' := InsertBits(env, st, id);
            StoreOk(env, st') && Grows(st, st') && SessOk(env, st', Admitted(env, s, id, who))
  {
    InsertKeeps(env, st, id);
    var st' := InsertBits(env, st, id);
    StartedStays(env, st, st', s);
    AdmittedKeeps(env, st', s, id, who);
  }

  lemma AddedKeeps(env: Env, st: Store, s: Sess, c: Cluster)
    requires StoreOk(env, st) && Started(env, st, s) && s.pc == Adding(c) && PcOk(env, st, s)
    ensures var (st', index) := AddCluster(st, c);
            StoreOk(env, st') && Grows(st, st') && SessOk(env, st', Added(s, c, index))
  {
    assert Listed(env, st.bits, c) by {
      CreatedOk(s.msgIn, c.id);
    }
    AddClusterKeeps(env, st, c);
    var (st', index) := AddCluster(st, c);
    if index < 0 {
      FailKeeps(env, st, s);
    } else {
      StartedStays(env, st, st', s);
      CreateAnswered(env, st', s, c, index);
    }
  }

  lemma CreateAnswered(env: Env, st: Store, s: Sess, c: Cluster, i: nat)
    requires Started(env, st, s) && Runs(s, DoCreate) && i < |st.clusters| && st.clusters[i] == c
    requires c.name == EffectiveName(s.msgIn.clusterName) && c.name in st.byName && st.byName[c.name] == i
    ensures SessOk(env, st, Added(s, c, i))
  {
    SucceedKeeps(env, st, s.(cluster := Some(i)), DoCreate, ClusterReply(OP_CREATE_REPLY, c, s.msgIn.clusterAttrs));
  }

  lemma CreatedOk(msg: Msg, id: Bytes)
    requires ValidID(id)
    ensures ClusterOk(Created(msg, id))
  {
  }

  lemma JoinedKeeps(env: Env, st: Store, s: Sess, c: nat)
    requires StoreOk(env, st) && Started(env, st, s) && s.pc == Appending(c) && PcOk(env, st, s) && s.client.Some?
    ensures var st' := WithMember(st, c, s.client.value);
            StoreOk(env, st') && Grows(st, st') && SessOk(env, st', Joined(s, c, st.clusters[c]))
  {
    WithMemberKeeps(env, st, c, s.client.value);
    var st' := WithMember(st, c, s.client.value);
    StartedStays(env, st, st', s);
    JoinAnswered(env, st', s, c, st.clusters[c]);
  }

  lemma JoinAnswered(env: Env, st: Store, s: Sess, i: nat, c: Cluster)
    requires Indexed(st) && Started(env, st, s) && Runs(s, DoJoin) && JoinOf(st, s, i)
    requires s.client.Some? && st.clusters[i] == Append(c, s.client.value)
    ensures SessOk(env, st, Joined(s, i, c))
  {
    SucceedKeeps(env, st, s.(cluster := Some(i), joinPos := |c.members|), DoJoin, ClusterReply(OP_JOIN_REPLY, c, c.attrs));
  }

  lemma SentKeeps(env: Env, st: Store, s: Sess, c: nat, size: nat)
    requires Started(env, st, s) && s.pc == Sending(c, size) && PcOk(env, st, s)
    ensures SessOk(env, st, Sent(env, s, st.clusters[c].members, size))
  {
    PackIsAligned(env, st.clusters[c].members, s.msgIn.which, size);
    var t := s.(sized := size);
    SucceedTrace(t, DoGet, MembersReply(s.msgIn, Pack(env, st.clusters[c].members, s.msgIn.which, size)));
  }

  /** A critical section leaves the message alone, sets the client only for a Member
      message and to the ID that message brought, and the cluster only before the session has
      joined; joining ties it to the cluster asked for. */
  ghost predicate Touches(st: Store, s: Sess, s': Sess) {
    && s'.msgIn == s.msgIn && s'.tag == s.tag
    && (s'.reply.None? ==> s'.entry == s.entry && !s'.pc.Ready?)
    && Names(s, s') && Ties(st, s, s')
  }

  ghost predicate Names(s: Sess, s': Sess) {
    || s'.client == s.client
    || (&& s.tag == MEMBER && s'.client.Some?
        && (s.msgIn.memberSpecs.id.Some? ==> s'.client.value.base.id == s.msgIn.memberSpecs.id.value))
  }

  ghost predicate Ties(st: Store, s: Sess, s': Sess) {
    && (s'.done == s.done || s'.done == s.done + [s.tag])
    && (JOIN in s.done ==> s'.cluster == s.cluster)
    && (s.tag == JOIN && s.msgIn.clusterID.Some? && s'.done != s.done ==>
          s.msgIn.clusterID.value in st.byID && s'.cluster == Some(st.byID[s.msgIn.clusterID.value]))
  }

  lemma AdvanceTouches(env: Env, st: Store, s: Sess, draw: Bytes)
    requires PcOk(env, st, s) && ClientOk(env, st, s) && Refs(st, s) && s.reply.None? && !s.pc.Ready?
    ensures Touches(st, s, Advance(env, st, s, draw).1)
  {
    AdvanceTies(env, st, s, draw);
    AdvanceClient(env, st, s, draw);
  }

  lemma AdvanceClient(env: Env, st: Store, s: Sess, draw: Bytes)
    requires PcOk(env, st, s) && Refs(st, s)
    ensures Names(s, Advance(env, st, s, draw).1)
  {
  }

  lemma AdvanceTies(env: Env, st: Store, s: Sess, draw: Bytes)
    requires PcOk(env, st, s) && ClientOk(env, st, s) && Refs(st, s)
    ensures Ties(st, s, Advance(env, st, s, draw).1)
  {
    if JOIN in s.done {
      LateTies(env, st, s, draw);
    }
  }

  /** After a Join only Get and Bye are served, and neither sets the cluster. */
  lemma LateTies(env: Env, st: Store, s: Sess, draw: Bytes)
    requires PcOk(env, st, s) && s.entry >= JOIN_RCVD && Refs(st, s)
    ensures Advance(env, st, s, draw).1.cluster == s.cluster
  {
  }

  // ---------------------------------------------------------------- errors

  /** A step that answers Error closes the session and changes no list and no index; only
      the ID filter may have grown. */
  lemma ErrorChangesNothing(env: Env, st: Store, s: Sess, draw: Bytes)
    requires Refs(st, s) && s.reply.None?
    requires var s' := Advance(env, st, s, draw).1; s'.reply.Some? && s'.reply.value.op == OP_ERROR
    ensures var (st', s') := Advance(env, st, s, draw);
            && s'.entry == IN_CLOSED && s'.pc.Ready?
            && st'.clusters == st.clusters && st'.byName == st.byName && st'.byID == st.byID
            && st.bits <= st'.bits
  {
  }
}
