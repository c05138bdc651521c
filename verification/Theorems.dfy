/** What every run guarantees: theorems about all reachable worlds. */
module Theorems {
  import opened Types
  import opened Stores
  import opened Dispatch
  import opened GetReply
  import opened Handlers
  import opened Sessions
  import opened Clients
  import opened Connections
  import opened Runs

  // ---------------------------------------------------------------- client tables

  predicate IsMaker(w: World, k: nat) {
    k < |w.conns| && w.conns[k].peer.Member?
  }

  ghost predicate Filled(m: Maker, i: nat) {
    i < |m.table| && m.table[i].Some?
  }

  lemma MakerAt(env: Env, w: World, k: nat)
    requires Reachable(env, w) && IsMaker(w, k)
    ensures StoreOk(env, w.store) && ConnOk(env, w.store, w.conns[k])
  {
    ReachableOk(env, w);
  }

  /** Whatever a client holds in slot i was built from the i-th member of its cluster. */
  lemma SlotsComeFromMembers(env: Env, w: World, k: nat, i: nat)
    requires Reachable(env, w) && IsMaker(w, k) && Filled(w.conns[k].peer.m, i)
    ensures SlotOk(env, w.store, w.conns[k].peer.m.clusterID, i, w.conns[k].peer.m.table[i].value)
  {
    MakerAt(env, w, k);
  }

  /** Two clients of one cluster agree wherever both have filled a slot. */
  lemma ClientsAgree(env: Env, w: World, j: nat, k: nat, i: nat)
    requires Reachable(env, w) && IsMaker(w, j) && IsMaker(w, k)
    requires w.conns[j].peer.m.clusterID == w.conns[k].peer.m.clusterID
    requires Filled(w.conns[j].peer.m, i) && Filled(w.conns[k].peer.m, i)
    ensures w.conns[j].peer.m.table[i] == w.conns[k].peer.m.table[i]
  {
    SlotsComeFromMembers(env, w, j, i);
    SlotsComeFromMembers(env, w, k, i);
  }

  /** A client that has joined and has nothing left to get, whether or not it has said Bye. */
  ghost predicate Complete(w: World, k: nat) {
    IsMaker(w, k) &&
    var m := w.conns[k].peer.m;
    Polled(m) && !m.stage.ToGet? && m.still == {} && m.maxSize > 0
  }

  lemma CompleteMeansFull(env: Env, w: World, k: nat)
    requires Reachable(env, w) && Complete(w, k)
    ensures var m := w.conns[k].peer.m;
            && m.clusterID in w.store.byID && w.store.byID[m.clusterID] < |w.store.clusters|
            && |m.table| == m.maxSize == w.store.clusters[w.store.byID[m.clusterID]].maxSize
            && forall i: nat | i < |m.table| :: Filled(m, i)
  {
    MakerAt(env, w, k);
    var m := w.conns[k].peer.m;
    forall i: nat | i < |m.table| ensures Filled(m, i) {
      assert i !in m.still;
    }
  }

  /** Two complete clients of one cluster hold equal tables. */
  lemma CompleteClientsEqual(env: Env, w: World, j: nat, k: nat)
    requires Reachable(env, w) && Complete(w, j) && Complete(w, k)
    requires w.conns[j].peer.m.clusterID == w.conns[k].peer.m.clusterID
    ensures w.conns[j].peer.m.table == w.conns[k].peer.m.table
  {
    CompleteMeansFull(env, w, j);
    CompleteMeansFull(env, w, k);
    var a, b := w.conns[j].peer.m.table, w.conns[k].peer.m.table;
    forall i: nat | i < |a| ensures a[i] == b[i] {
      assert Filled(w.conns[j].peer.m, i) && Filled(w.conns[k].peer.m, i);
      ClientsAgree(env, w, j, k, i);
    }
  }

  /** The table of a client from the answer to its Join on: the cluster's size, filled
      exactly where the mask is clear, at most 32 Gets. */
  lemma TableInStep(env: Env, w: World, k: nat)
    requires Reachable(env, w) && IsMaker(w, k)
    ensures var m := w.conns[k].peer.m;
            && m.gets <= 32
            && (Polled(m) ==> |m.table| == m.maxSize <= 64 && InStep(m.table, m.still))
  {
    MakerAt(env, w, k);
  }

  /** No step of anyone overwrites a filled slot, and a client's mask only shrinks. */
  lemma SlotsAreKept(env: Env, w: World, a: Step, k: nat, i: nat)
    requires Reachable(env, w) && IsMaker(w, k)
    ensures IsMaker(Next(env, w, a), k)
    ensures var m, n := w.conns[k].peer.m, Next(env, w, a).conns[k].peer.m;
            && (Filled(m, i) ==> Filled(n, i) && n.table[i] == m.table[i])
            && (m.stage.ToGet? ==> n.still <= m.still && |n.table| == |m.table|)
  {
    MakerAt(env, w, k);
    PeerMoves(env, w, a, k);
    var c := w.conns[k];
    if a.Collect? && a.k == k && Enabled(w, a) {
      TakeOnlyFills(env, w.store, c.sess, c.peer.m, a.draw, i);
    } else if a.Post? && a.k == k && Enabled(w, a) {
      PrepareIsIdle(w.store, c.peer.m);
    }
  }

  /** A client changes only by sending and by taking in a reply. */
  lemma PeerMoves(env: Env, w: World, a: Step, k: nat)
    requires k < |w.conns|
    ensures var (c, v) := (w.conns[k], Next(env, w, a));
            && k < |v.conns|
            && v.conns[k].peer == if Enabled(w, a) && a.Collect? && a.k == k then Take(env, c, a.draw).peer
                                  else if Enabled(w, a) && a.Post? && a.k == k then Send(env, w.store, c).peer
                                  else c.peer
  {
  }

  lemma TakeOnlyFills(env: Env, st: Store, s: Sess, m: Maker, draw: Bytes, i: nat)
    requires ReplyOk(env, st, s) && TraceOk(s) && InSync(s, m) && TableOk(st, m) && m.waiting && s.reply.Some?
    ensures var n := Absorb(env, m, s.reply.value, draw);
            && (Filled(m, i) ==> Filled(n, i) && n.table[i] == m.table[i])
            && (m.stage.ToGet? ==> n.still <= m.still && |n.table| == |m.table|)
  {
    if m.stage.ToGet? {
      if s.reply.value.op == OP_ERROR {
        RankOfNothing(64);
        RoundOnlyFills(env, [], m, s.reply.value, i);
      } else {
        RoundOnlyFills(env, st.clusters[st.byID[m.clusterID]].members, m, s.reply.value, i);
      }
    }
  }

  lemma RoundOnlyFills(env: Env, members: seq<ClientInfo>, m: Maker, reply: Msg, i: nat)
    requires InStep(m.table, m.still) && |m.table| <= 64
    requires Aligned(env, members, reply.which, reply.tokens) && reply.which <= m.still
    ensures var n := AbsorbMembers(env, m.(waiting := false), reply);
            && (Filled(m, i) ==> Filled(n, i) && n.table[i] == m.table[i])
            && n.still <= m.still && |n.table| == |m.table|
  {
    RoundKeepsStep(env, members, reply.which, reply.tokens, m.table, m.still);
  }

  /** The members that a client's table has room for convert. */
  ghost predicate Convertible(env: Env, st: Store, m: Maker) {
    && m.clusterID in st.byID && st.byID[m.clusterID] < |st.clusters|
    && var ms := st.clusters[st.byID[m.clusterID]].members;
       forall i | 0 <= i < |ms| && i < m.maxSize :: InfoOf(env, ms[i]).Some?
  }

  /** A Get answered from at least max-size members, the first max-size of them convertible,
      leaves nothing to get; the client then knows its own least slot and moves on to Bye. */
  lemma FullGetCompletes(env: Env, w: World, k: nat, draw: Bytes)
    requires Reachable(env, w) && IsMaker(w, k) && CanTake(w.conns[k])
    requires w.conns[k].peer.m.stage.ToGet? && w.conns[k].sess.reply.value.op == OP_CLUSTER_MEMBERS
    requires w.conns[k].sess.sized >= w.conns[k].peer.m.maxSize
    requires Convertible(env, w.store, w.conns[k].peer.m)
    ensures var m := Take(env, w.conns[k], draw).peer.m;
            m.still == {} && m.stage == ToBye && Located(m)
  {
    MakerAt(env, w, k);
    FullTake(env, w.store, w.conns[k].sess, w.conns[k].peer.m, draw);
  }

  lemma FullTake(env: Env, st: Store, s: Sess, m: Maker, draw: Bytes)
    requires ReplyOk(env, st, s) && InSync(s, m) && TableOk(st, m) && m.waiting && m.stage.ToGet?
    requires s.reply.Some? && s.reply.value.op == OP_CLUSTER_MEMBERS && s.sized >= m.maxSize
    requires Convertible(env, st, m)
    ensures var n := Absorb(env, m, s.reply.value, draw);
            n.still == {} && n.stage == ToBye && Located(n)
  {
    FullReply(env, st.clusters[st.byID[m.clusterID]].members, s.sized, m, s.msgIn, s.reply.value);
  }

  lemma FullReply(env: Env, members: seq<ClientInfo>, sized: nat, m: Maker, req: Msg, reply: Msg)
    requires m.stage.ToGet? && Joins(m.kind) && InStep(m.table, m.still) && |m.table| == m.maxSize
    requires m.maxSize <= sized <= |members| && sized <= 64
    requires forall i | 0 <= i < m.maxSize :: InfoOf(env, members[i]).Some?
    requires req.which == m.still && reply == MembersReply(req, Pack(env, members, req.which, sized))
    ensures var n := AbsorbMembers(env, m.(waiting := false), reply);
            n.still == {} && n.stage == ToBye && Located(n)
  {
    RoundCompletes(env, members, sized, m.table, m.still);
    PackIsAligned(env, members, m.still, sized);
    NoneFailed(env, members, reply.which, reply.tokens, |m.table|);
    LastRound(Round(env, m.(waiting := false), reply));
  }

  lemma LastRound(m: Maker)
    requires m.still == {} && Joins(m.kind) && |m.table| == m.maxSize
    ensures var n := Settle(m, false); n.still == {} && n.stage == ToBye && Located(n)
  {
  }

  /** Once complete, SelfIndex is the client's join position, if that is below max size and
      no earlier member brought the same ID. */
  lemma SelfIndexIsJoinPosition(env: Env, w: World, k: nat)
    requires Reachable(env, w) && Complete(w, k)
    requires w.conns[k].sess.joinPos < w.conns[k].peer.m.maxSize
    requires var m := w.conns[k].peer.m;
             m.clusterID in w.store.byID && w.store.byID[m.clusterID] < |w.store.clusters|
             && var ms := w.store.clusters[w.store.byID[m.clusterID]].members;
                forall i | 0 <= i < w.conns[k].sess.joinPos && i < |ms| :: ms[i].base.id != m.selfID
    ensures w.conns[k].peer.m.selfIndex == w.conns[k].sess.joinPos
  {
    MakerAt(env, w, k);
    CompleteMeansFull(env, w, k);
    var s, m := w.conns[k].sess, w.conns[k].peer.m;
    var ms := w.store.clusters[w.store.byID[m.clusterID]].members;
    forall i: nat | i < |m.table| ensures m.table[i].Some? && i < |ms| && m.table[i].value.id == ms[i].base.id {
      assert Filled(m, i);
      assert SlotOk(env, w.store, m.clusterID, i, m.table[i].value);
    }
    assert ms[s.joinPos] == s.client.value;
    LeastSlot(m, ms, s.joinPos);
  }

  lemma LeastSlot(m: Maker, ms: seq<ClientInfo>, pos: nat)
    requires forall i: nat | i < |m.table| :: m.table[i].Some? && i < |ms| && m.table[i].value.id == ms[i].base.id
    requires Located(m) && Polled(m) && !m.stage.ToGet? && m.still == {}
    requires pos < |m.table| && pos < |ms| && ms[pos].base.id == m.selfID && forall i | 0 <= i < pos :: ms[i].base.id != m.selfID
    ensures m.selfIndex == pos
  {
    assert m.table[pos].Some? && m.table[pos].value.id == m.selfID;
  }

  // ---------------------------------------------------------------- clusters

  /** The cluster list and both indexes describe the same clusters, whose names and IDs are
      pairwise distinct and whose sizes are in 2..64. */
  lemma RegistryConsistent(env: Env, w: World)
    requires Reachable(env, w)
    ensures Indexed(w.store)
    ensures forall i, j | 0 <= i < j < |w.store.clusters| ::
              w.store.clusters[i].name != w.store.clusters[j].name && w.store.clusters[i].id != w.store.clusters[j].id
    ensures forall i | 0 <= i < |w.store.clusters| :: 2 <= w.store.clusters[i].maxSize <= 64
  {
    ReachableOk(env, w);
    forall i, j | 0 <= i < j < |w.store.clusters|
      ensures w.store.clusters[i].name != w.store.clusters[j].name && w.store.clusters[i].id != w.store.clusters[j].id
    {
      ClustersDistinct(w.store, i, j);
    }
    forall i | 0 <= i < |w.store.clusters| ensures 2 <= w.store.clusters[i].maxSize <= 64 {
      assert Listed(env, w.store.bits, w.store.clusters[i]);
    }
  }

  lemma {:induction false} ExecSplits(env: Env, w: World, steps: seq<Step>, n: nat)
    requires n <= |steps|
    ensures Exec(env, w, steps) == Exec(env, Exec(env, w, steps[..n]), steps[n..])
  {
    if n < |steps| {
      var most := steps[..|steps| - 1];
      ExecSplits(env, w, most, n);
      assert most[..n] == steps[..n] && most[n..] == steps[n..][..|steps[n..]| - 1];
    } else {
      assert steps[..n] == steps;
    }
  }

  /** From any moment of a run on, every cluster keeps its position, its name, ID, size and
      endpoint count, and every member its place in the list. */
  lemma PositionsArePermanent(env: Env, regID: Bytes, steps: seq<Step>, n: nat)
    requires ValidID(regID) && n <= |steps|
    ensures Grows(Exec(env, Start(env, regID), steps[..n]).store, Exec(env, Start(env, regID), steps).store)
  {
    StartOk(env, regID);
    ExecKeeps(env, Start(env, regID), steps[..n]);
    ExecSplits(env, Start(env, regID), steps, n);
    ExecKeeps(env, Exec(env, Start(env, regID), steps[..n]), steps[n..]);
  }

  ghost predicate Answered(w: World, i: nat, tag: int) {
    i < |w.log| && w.log[i].tag == tag && w.log[i].reply.op != OP_ERROR
  }

  ghost predicate SameProperties(a: Msg, b: Msg) {
    a.clusterID == b.clusterID && a.clusterMaxSize == b.clusterMaxSize && a.endPointCount == b.endPointCount
  }

  /** All successful Creates of one name are answered alike, whoever won the race. */
  lemma CreatesAgree(env: Env, w: World, i: nat, j: nat)
    requires Reachable(env, w) && Answered(w, i, CREATE) && Answered(w, j, CREATE)
    requires EffectiveName(w.log[i].req.clusterName) == EffectiveName(w.log[j].req.clusterName)
    ensures SameProperties(w.log[i].reply, w.log[j].reply)
    ensures 2 <= w.log[i].reply.clusterMaxSize <= 64
  {
    ReachableOk(env, w);
    var a, b := w.log[i], w.log[j];
    assert Truthful(env, w.store, a.tag, a.req, a.reply) && Truthful(env, w.store, b.tag, b.req, b.reply);
    var c := w.store.byName[EffectiveName(a.req.clusterName)];
    assert Listed(env, w.store.bits, w.store.clusters[c]);
  }

  ghost predicate HasName(st: Store, name: string) {
    exists i :: 0 <= i < |st.clusters| && st.clusters[i].name == name
  }

  ghost predicate HasID(st: Store, id: Bytes) {
    exists i :: 0 <= i < |st.clusters| && st.clusters[i].id == id
  }

  /** Under any interleaving, a Create that gets to AddCluster is refused exactly when its name
      or its ID is listed by then; so of two racing Creates of one name the later is refused. */
  lemma CreateRefusedExactlyAt(env: Env, w: World, k: nat, draw: Bytes)
    requires Reachable(env, w) && k < |w.conns| && w.conns[k].sess.pc.Adding?
    ensures var s := w.conns[k].sess;
            Advance(env, w.store, s, draw).1.entry == IN_CLOSED <==>
              HasName(w.store, EffectiveName(s.msgIn.clusterName)) || HasID(w.store, s.pc.c.id)
  {
    AddingAt(env, w, k);
    var c := w.conns[k].sess.pc.c;
    ListedByName(w.store, c.name);
    ListedByID(w.store, c.id);
  }

  lemma AddingAt(env: Env, w: World, k: nat)
    requires Reachable(env, w) && k < |w.conns| && w.conns[k].sess.pc.Adding?
    ensures Indexed(w.store) && w.conns[k].sess.pc.c.name == EffectiveName(w.conns[k].sess.msgIn.clusterName)
  {
    ReachableOk(env, w);
    assert ConnOk(env, w.store, w.conns[k]);
  }

  /** A Create that the table admits is never refused on receipt. */
  lemma CreateIsTakenUp(env: Env, st: Store, s: Sess, msg: Msg)
    requires Indexed(st) && s.pc.Ready? && s.entry == CLIENT_DETAILS_RCVD && msg.op == OP_CREATE
    ensures var t := Receive(env, st, s, msg);
            if HasName(st, msg.clusterName) then t.entry == CREATE_REQUEST_RCVD else t.pc == Issue(ForCluster)
  {
    assert Op2Tag(OP_CREATE) == CREATE && TABLE[CLIENT_DETAILS_RCVD][CREATE] == DoCreate;
    ListedByName(st, msg.clusterName);
  }

  lemma ListedByName(st: Store, name: string)
    requires Indexed(st)
    ensures name in st.byName <==> HasName(st, name)
  {
  }

  lemma ListedByID(st: Store, id: Bytes)
    requires Indexed(st)
    ensures id in st.byID <==> HasID(st, id)
  {
  }

  /** A Join of the cluster a Create answered for, by ID or by name, is answered like it. */
  lemma JoinsAgreeWithCreates(env: Env, w: World, i: nat, j: nat)
    requires Reachable(env, w) && Answered(w, i, CREATE) && Answered(w, j, JOIN)
    requires var (create, join) := (w.log[i], w.log[j]);
             || join.reply.clusterID == create.reply.clusterID
             || join.req.clusterID == create.reply.clusterID
             || (join.req.clusterID.None? && join.req.clusterName != ""
                 && join.req.clusterName == EffectiveName(create.req.clusterName))
    ensures SameProperties(w.log[i].reply, w.log[j].reply)
  {
    ReachableOk(env, w);
    var a, b := w.log[i], w.log[j];
    assert Truthful(env, w.store, a.tag, a.req, a.reply) && Truthful(env, w.store, b.tag, b.req, b.reply);
    var c := w.store.byName[EffectiveName(a.req.clusterName)];
    assert w.store.byID[w.store.clusters[c].id] == c;
  }

  // ---------------------------------------------------------------- sessions

  /** The successful messages of any session form a prefix of
      (Member Create? (Join Get*)?)? Bye, and lead to the state it is in. */
  lemma SessionsSpeakTheLanguage(env: Env, w: World, k: nat)
    requires Reachable(env, w) && k < |w.conns|
    ensures var s := w.conns[k].sess;
            && InLanguage(s.done)
            && (s.entry != IN_CLOSED ==> StateAfter(s.done) == Some(s.entry))
  {
    ReachableOk(env, w);
    assert ConnOk(env, w.store, w.conns[k]);
    AdmittedIffInLanguage(w.conns[k].sess.done);
  }

  /** Every message but the one under way has had exactly one reply: the partner of the
      request, or Error, and Error exactly when the session is closed. */
  lemma OneReplyEach(env: Env, w: World, k: nat)
    requires Reachable(env, w) && k < |w.conns|
    ensures var s := w.conns[k].sess;
            && s.heard == s.said + (if s.pc.Ready? then 0 else 1)
            && (s.heard > 0 && s.pc.Ready? ==>
                  && s.reply.Some?
                  && (s.reply.value.op == OP_ERROR || s.reply.value.op == 2 * s.tag + 4)
                  && (s.reply.value.op == OP_ERROR <==> s.entry == IN_CLOSED))
  {
    ReachableOk(env, w);
    assert ConnOk(env, w.store, w.conns[k]);
  }

  /** Join finds the session's client set; so does every handler after MemberOK. */
  lemma ClientIsSet(env: Env, w: World, k: nat)
    requires Reachable(env, w) && k < |w.conns|
    requires var pc := w.conns[k].sess.pc; pc.NameCheck? || pc.IDCheck? || pc.Appending?
    ensures w.conns[k].sess.client.Some? && Refs(w.store, w.conns[k].sess)
  {
    ReachableOk(env, w);
    assert ConnOk(env, w.store, w.conns[k]);
  }

  /** No listed cluster is the one a Join asks for. */
  ghost predicate Unlisted(st: Store, s: Sess, msg: Msg) {
    if msg.clusterID.Some? then forall i | 0 <= i < |st.clusters| :: st.clusters[i].id != msg.clusterID.value
    else if msg.clusterName != "" then forall i | 0 <= i < |st.clusters| :: st.clusters[i].name != msg.clusterName
    else s.cluster.None?
  }

  /** The op or the state has no place in the table, or the message is a Join of nothing. */
  ghost predicate Fatal(st: Store, s: Sess, msg: Msg) {
    || !(HELLO_RCVD <= s.entry <= JOIN_RCVD && 2 <= msg.op <= 12)
    || (&& (s.entry == CLIENT_DETAILS_RCVD || s.entry == CREATE_REQUEST_RCVD)
        && (msg.op == OP_JOIN || msg.op == OP_JOIN_REPLY) && Unlisted(st, s, msg))
  }

  /** The session and the message of a step that delivers one. */
  function Delivers(w: World, a: Step): Option<(nat, Msg)> {
    match a
    case Hear(k, msg) => Some((k, msg))
    case Post(k) =>
      if IsMaker(w, k) && w.conns[k].sess.entry != IN_CLOSED then Some((k, Request(Prepare(w.conns[k].peer.m)))) else None
    case _ => None
  }

  lemma TargetUnlisted(st: Store, s: Sess, msg: Msg)
    requires Indexed(st)
    ensures JoinTarget(st, Heard(s, msg)).None? <==> Unlisted(st, s, msg)
  {
  }

  lemma ReceivePanics(env: Env, st: Store, s: Sess, msg: Msg)
    requires Indexed(st) && s.pc.Ready?
    ensures Receive(env, st, s, msg).pc.Panicked? <==> Fatal(st, s, msg)
  {
    TableAccess(s.entry, msg.op);
    TargetUnlisted(st, s, msg);
  }

  /** No critical section panics: once a message has been taken up, its handler ends. */
  lemma AdvanceNeverPanics(env: Env, st: Store, s: Sess, draw: Bytes)
    requires Refs(st, s) && !s.pc.Panicked?
    ensures !Advance(env, st, s, draw).1.pc.Panicked?
  {
  }

  /** While the server is up, no handler has panicked. */
  ghost predicate Alive(w: World) {
    !w.crashed ==> forall k | 0 <= k < |w.conns| :: !w.conns[k].sess.pc.Panicked?
  }

  lemma {:induction false} AliveExec(env: Env, w: World, steps: seq<Step>)
    requires Alive(w)
    ensures Alive(Exec(env, w, steps))
  {
    if steps != [] {
      AliveExec(env, w, steps[..|steps| - 1]);
      AliveNext(env, Exec(env, w, steps[..|steps| - 1]), steps[|steps| - 1]);
    }
  }

  lemma AliveNext(env: Env, w: World, a: Step)
    requires Alive(w)
    ensures Alive(Next(env, w, a))
  {
  }

  lemma NotPanicked(env: Env, w: World, k: nat)
    requires Reachable(env, w) && !w.crashed && k < |w.conns|
    ensures !w.conns[k].sess.pc.Panicked?
  {
    var regID, steps :| Reaching(env, regID, steps, w);
    AliveExec(env, Start(env, regID), steps);
  }

  /** In every reachable state, exactly when a step brings the server down: it delivers a
      message whose op or state has no place in the table, or a Join of a cluster that no
      listed one matches. */
  lemma PanicsExactlyWhen(env: Env, w: World, a: Step)
    requires Reachable(env, w) && Enabled(w, a)
    ensures Next(env, w, a).crashed <==>
            var d := Delivers(w, a);
            d.Some? && d.value.0 < |w.conns| && Fatal(w.store, w.conns[d.value.0].sess, d.value.1)
  {
    ReachableOk(env, w);
    match a
    case Connect(p) =>
    case Hear(k, msg) => ReceivePanics(env, w.store, w.conns[k].sess, msg);
    case Work(k, draw) =>
      NotPanicked(env, w, k);
      AdvanceNeverPanics(env, w.store, w.conns[k].sess, draw);
    case Post(k) => ReceivePanics(env, w.store, w.conns[k].sess, Request(Prepare(w.conns[k].peer.m)));
    case Collect(k, draw) =>
  }

  /** No client script reaches the bad-combination handler, however many Gets it sends. */
  lemma ScriptsNeverMisstep(env: Env, w: World, k: nat)
    requires Reachable(env, w) && IsMaker(w, k) && CanSend(w.conns[k]) && w.conns[k].sess.entry != IN_CLOSED
    ensures var (s, tag) := (w.conns[k].sess, Op2Tag(Request(w.conns[k].peer.m).op));
            InTable(s.entry, tag) && TABLE[s.entry][tag] != BadCombo
  {
    MakerAt(env, w, k);
    ScriptReaches(w.conns[k].sess, w.conns[k].peer.m);
  }

  /** A script that ran to its end leaves its session at BYE_RCVD. */
  lemma ScriptsEndInBye(env: Env, w: World, k: nat)
    requires Reachable(env, w) && IsMaker(w, k) && w.conns[k].peer.m.stage == Finished(true)
    ensures w.conns[k].sess.entry == BYE_RCVD
  {
    MakerAt(env, w, k);
  }

  // ---------------------------------------------------------------- the ID filter

  /** In every state the filter answers yes for every ID in use: whatever was inserted, every
      cluster, every cluster member and every session's client. */
  lemma IDsInUseAreKnown(env: Env, w: World)
    requires Reachable(env, w)
    ensures forall i | 0 <= i < |w.inserted| :: Has(env, w.store, w.inserted[i].id)
    ensures forall i | 0 <= i < |w.store.clusters| ::
              && Has(env, w.store, w.store.clusters[i].id)
              && forall j | 0 <= j < |w.store.clusters[i].members| ::
                   Has(env, w.store, w.store.clusters[i].members[j].base.id)
    ensures forall k | 0 <= k < |w.conns| && w.conns[k].sess.client.Some? ::
              Has(env, w.store, w.conns[k].sess.client.value.base.id)
  {
    ReachableOk(env, w);
    forall i | 0 <= i < |w.store.clusters| ensures Listed(env, w.store.bits, w.store.clusters[i]) {
    }
    forall k | 0 <= k < |w.conns| ensures ConnOk(env, w.store, w.conns[k]) {
    }
  }
}
