/** A handler that nobody interrupts: its critical sections one after the other, to the end.
    This is what the objects' methods are proved against. */
module Alone {
  import opened Types
  import opened Stores
  import opened Dispatch
  import opened Handlers
  import opened Whole
  import opened Sessions
  import opened Connections
  import opened Runs
  import opened Theorems

  /** How many critical sections may be left, draws aside. */
  function Left(pc: Pc): nat {
    match pc
    case Ready => 0
    case Panicked => 0
    case Issue(_) => 5
    case Issuing(_, _) => 2
    case Vouch(_, _) => 3
    case Recheck(_, _) => 2
    case Vouching(_, _) => 1
    case Adding(_) => 1
    case NameCheck(_) => 3
    case IDCheck(_) => 2
    case Appending(_) => 1
    case Sizing(_) => 2
    case Sending(_, _) => 1
  }

  predicate Halted(s: Sess, draws: seq<Bytes>) {
    s.pc.Ready? || s.pc.Panicked? || (s.pc.Issue? && draws == [])
  }

  /** The draw for the next section; only a session that is drawing looks at it. */
  function FirstDraw(draws: seq<Bytes>): Bytes {
    if draws == [] then seq(20, _ => 0) else draws[0]
  }

  function LaterDraws(s: Sess, draws: seq<Bytes>): seq<Bytes> {
    if s.pc.Issue? && draws != [] then draws[1..] else draws
  }

  lemma StepHolds(env: Env, st: Store, s: Sess, draws: seq<Bytes>)
    requires Refs(st, s)
    ensures var next := Advance(env, st, s, FirstDraw(draws));
            Refs(next.0, next.1) && (!Halted(s, draws) && !s.pc.Issue? ==> Left(next.1.pc) < Left(s.pc))
  {
  }

  /** `draws` is what the random source yields. A session still at Issue at the end knew
      every one of them. */
  function Finish(env: Env, st: Store, s: Sess, draws: seq<Bytes>): (r: (Store, Sess))
    requires Refs(st, s)
    decreases |draws|, Left(s.pc)
  {
    if Halted(s, draws) then (st, s)
    else
      StepHolds(env, st, s, draws);
      var next := Advance(env, st, s, FirstDraw(draws));
      Finish(env, next.0, next.1, LaterDraws(s, draws))
  }

  ghost predicate DrawsOk(draws: seq<Bytes>) {
    forall i | 0 <= i < |draws| :: ValidID(draws[i])
  }

  ghost predicate Sound(env: Env, st: Store, s: Sess) {
    StoreOk(env, st) && SessOk(env, st, s) && Refs(st, s)
  }

  lemma StepSound(env: Env, st: Store, s: Sess, draws: seq<Bytes>)
    requires Sound(env, st, s) && DrawsOk(draws)
    ensures var next := Advance(env, st, s, FirstDraw(draws));
            Sound(env, next.0, next.1) && Grows(st, next.0)
  {
    AdvanceKeeps(env, st, s, FirstDraw(draws));
    StepHolds(env, st, s, draws);
  }

  /** The invariants of the stores and of the session hold when it is done. */
  lemma {:induction false} FinishSound(env: Env, st: Store, s: Sess, draws: seq<Bytes>)
    requires Sound(env, st, s) && DrawsOk(draws)
    ensures var (st', s') := Finish(env, st, s, draws); Sound(env, st', s') && Grows(st, st')
    decreases |draws|, Left(s.pc)
  {
    if !Halted(s, draws) {
      StepHolds(env, st, s, draws);
      StepSound(env, st, s, draws);
      var next := Advance(env, st, s, FirstDraw(draws));
      FinishSound(env, next.0, next.1, LaterDraws(s, draws));
      GrowsTransitive(st, next.0, Finish(env, st, s, draws).0);
    }
  }

  // ---------------------------------------------------------------- what it comes to

  /** One section of an uninterrupted handler. */
  lemma FinishStep(env: Env, st: Store, s: Sess, draws: seq<Bytes>, st': Store, s': Sess)
    requires Refs(st, s) && !Halted(s, draws) && !s.pc.Issue?
    requires Advance(env, st, s, FirstDraw(draws)) == (st', s')
    ensures Refs(st', s') && Finish(env, st, s, draws) == Finish(env, st', s', draws)
  {
    StepHolds(env, st, s, draws);
  }

  lemma FinishReady(env: Env, st: Store, s: Sess, draws: seq<Bytes>)
    requires s.pc.Ready? || s.pc.Panicked?
    ensures Finish(env, st, s, draws) == (st, s)
  {
  }

  /** Drawing alone: every known draw is passed over and the first unknown one goes in. */
  lemma {:induction false} FinishIssue(env: Env, st: Store, s: Sess, draws: seq<Bytes>, goal: Goal)
    requires s.pc == Issue(goal)
    ensures match FirstFresh(env, st, draws)
            case None => Finish(env, st, s, draws) == (st, s)
            case Some(i) =>
              var st', s' := InsertBits(env, st, draws[i]), Issued(env, s.(pc := Issuing(draws[i], goal)), draws[i], goal);
              Refs(st', s') && Finish(env, st, s, draws) == Finish(env, st', s', draws[i + 1..])
    decreases |draws|
  {
    if draws != [] {
      StepHolds(env, st, s, draws);
      if Has(env, st, draws[0]) {
        FinishIssue(env, st, s, draws[1..], goal);
      } else {
        var t := s.(pc := Issuing(draws[0], goal));
        StepHolds(env, st, t, draws[1..]);
      }
    }
  }

  lemma NewIDAlone(env: Env, st: Store, s: Sess, draws: seq<Bytes>, who: Applicant)
    ensures Finish(env, st, s.(pc := Issue(ForClient(who))), draws) == NewID(env, st, s, draws, who)
  {
    FinishIssue(env, st, s.(pc := Issue(ForClient(who))), draws, ForClient(who));
    var first := FirstFresh(env, st, draws);
    if first.Some? {
      var i := first.value;
      FinishReady(env, InsertBits(env, st, draws[i]), Admitted(env, s, draws[i], who), draws[i + 1..]);
    }
  }

  /** An ID the client brought: inserted unless known, and accepted either way. */
  lemma OwnIDAlone(env: Env, st: Store, s: Sess, draws: seq<Bytes>, id: Bytes, who: Applicant)
    ensures Finish(env, st, s.(pc := Vouch(id, who)), draws) == OwnID(env, st, s, id, who)
  {
    var r, done := s.(pc := Vouch(id, who)), Admitted(env, s, id, who);
    if Has(env, st, id) {
      FinishStep(env, st, r, draws, st, done);
      FinishReady(env, st, done, draws);
    } else {
      var t, u, st' := s.(pc := Recheck(id, who)), s.(pc := Vouching(id, who)), InsertBits(env, st, id);
      FinishStep(env, st, r, draws, st, t);
      FinishStep(env, st, t, draws, st, u);
      FinishStep(env, st, u, draws, st', done);
      FinishReady(env, st', done, draws);
    }
  }

  lemma MemberAlone(env: Env, st: Store, t: Sess, draws: seq<Bytes>)
    requires t.pc.Ready?
    ensures Finish(env, st, ReceiveMember(env, t), draws) == WholeMember(env, st, t, draws)
  {
    var who := Verified(env, t.msgIn.memberSpecs);
    if who.Some? {
      match t.msgIn.memberSpecs.id
      case None => NewIDAlone(env, st, t, draws, who.value);
      case Some(id) => OwnIDAlone(env, st, t, draws, id, who.value);
    }
    FinishReady(env, st, Fail(t), draws);
  }

  lemma CreateAlone(env: Env, st: Store, t: Sess, draws: seq<Bytes>)
    requires Indexed(st)
    ensures Finish(env, st, ReceiveCreate(st, t), draws) == WholeCreate(env, st, t, draws)
  {
    if t.msgIn.clusterName in st.byName {
      FinishReady(env, st, ReceiveCreate(st, t), draws);
    } else {
      NewClusterAlone(env, st, t, draws);
    }
  }

  lemma NewClusterAlone(env: Env, st: Store, t: Sess, draws: seq<Bytes>)
    ensures Finish(env, st, t.(pc := Issue(ForCluster)), draws) == NewCluster(env, st, t, draws)
  {
    FinishIssue(env, st, t.(pc := Issue(ForCluster)), draws, ForCluster);
    var first := FirstFresh(env, st, draws);
    if first.Some? {
      var i := first.value;
      ListsAlone(env, InsertBits(env, st, draws[i]), t, draws[i + 1..], Created(t.msgIn, draws[i]));
    }
  }

  lemma ListsAlone(env: Env, st: Store, t: Sess, draws: seq<Bytes>, c: Cluster)
    ensures Finish(env, st, t.(pc := Adding(c)), draws) == Lists(st, t, c)
  {
    var (st', done) := Lists(st, t, c);
    FinishStep(env, st, t.(pc := Adding(c)), draws, st', done);
    FinishReady(env, st', done, draws);
  }

  /** AddMember's three lock sections, alone, are one atomic AddMember. */
  lemma JoinAlone(env: Env, st: Store, s: Sess, draws: seq<Bytes>, i: nat)
    requires i < |st.clusters| && s.client.Some?
    ensures Finish(env, st, s.(pc := NameCheck(i)), draws) == JoinAt(st, s, i)
  {
    var r, t, u := s.(pc := NameCheck(i)), s.(pc := IDCheck(i)), s.(pc := Appending(i));
    if !NameFree(st.clusters[i], s.client.value) {
      FinishStep(env, st, r, draws, st, Fail(s));
    } else {
      FinishStep(env, st, r, draws, st, t);
      if !IDFree(st.clusters[i]) {
        FinishStep(env, st, t, draws, st, Fail(s));
      } else {
        FinishStep(env, st, t, draws, st, u);
        var st', done := WithMember(st, i, s.client.value), Joined(s, i, st.clusters[i]);
        FinishStep(env, st, u, draws, st', done);
        FinishReady(env, st', done, draws);
      }
    }
    FinishReady(env, st, Fail(s), draws);
  }

  lemma GetAlone(env: Env, st: Store, t: Sess, draws: seq<Bytes>, c: nat)
    requires c < |st.clusters|
    ensures Finish(env, st, t.(pc := Sizing(c)), draws) == (st, GetFrom(env, t, st.clusters[c].members))
  {
    var ms := st.clusters[c].members;
    var u := t.(pc := Sending(c, if |ms| > 64 then 64 else |ms|));
    var done := GetFrom(env, t, ms);
    FinishStep(env, st, t.(pc := Sizing(c)), draws, st, u);
    FinishStep(env, st, u, draws, st, done);
    FinishReady(env, st, done, draws);
  }

  // ---------------------------------------------------------------- a message, a session

  lemma ReceiveRefs(env: Env, st: Store, s: Sess, msg: Msg)
    requires Waiting(st, s)
    ensures Refs(st, Receive(env, st, s, msg))
  {
    var t := Heard(s, msg);
    if InTable(t.entry, t.tag) {
      TableReaches(t.entry, t.tag);
    }
  }

  /** Uninterrupted, the critical sections of a message come to the whole message. */
  lemma MessageAlone(env: Env, st: Store, s: Sess, msg: Msg, draws: seq<Bytes>)
    requires Waiting(st, s)
    ensures Refs(st, Receive(env, st, s, msg))
    ensures Finish(env, st, Receive(env, st, s, msg), draws) == WholeMessage(env, st, s, msg, draws)
  {
    ReceiveRefs(env, st, s, msg);
    var t := Heard(s, msg);
    if !InTable(t.entry, t.tag) {
      FinishReady(env, st, t.(pc := Panicked), draws);
    } else {
      TableReaches(t.entry, t.tag);
      JoinRefs(st, s, t);
      BeginAlone(env, st, t, TABLE[t.entry][t.tag], draws);
    }
  }

  lemma BeginAlone(env: Env, st: Store, t: Sess, h: Handler, draws: seq<Bytes>)
    requires Indexed(st) && t.pc.Ready? && Refs(st, Begin(env, st, t, h))
    ensures Finish(env, st, Begin(env, st, t, h), draws) ==
            match h
            case BadCombo => (st, Fail(t))
            case DoClient => WholeMember(env, st, t, draws)
            case DoCreate => WholeCreate(env, st, t, draws)
            case DoJoin => WholeJoin(st, t)
            case DoGet => (st, WholeGet(env, st, t))
            case DoBye => (st, Succeed(t, BYE_RCVD, Blank(OP_ACK)))
  {
    match h
    case BadCombo => FinishReady(env, st, Fail(t), draws);
    case DoClient => MemberAlone(env, st, t, draws);
    case DoCreate => CreateAlone(env, st, t, draws);
    case DoJoin => WholeJoinAlone(env, st, t, draws);
    case DoGet => WholeGetAlone(env, st, t, draws);
    case DoBye => FinishReady(env, st, Succeed(t, BYE_RCVD, Blank(OP_ACK)), draws);
  }

  lemma WholeJoinAlone(env: Env, st: Store, t: Sess, draws: seq<Bytes>)
    requires Refs(st, ReceiveJoin(st, t))
    ensures Finish(env, st, ReceiveJoin(st, t), draws) == WholeJoin(st, t)
  {
    match JoinTarget(st, t)
    case None => FinishReady(env, st, t.(pc := Panicked), draws);
    case Some(i) => JoinAlone(env, st, t, draws, i);
  }

  lemma WholeGetAlone(env: Env, st: Store, t: Sess, draws: seq<Bytes>)
    requires Refs(st, ReceiveGet(st, t))
    ensures Finish(env, st, ReceiveGet(st, t), draws) == (st, WholeGet(env, st, t))
  {
    var id := t.msgIn.clusterID;
    if id.Some? && id.value in st.byID {
      GetAlone(env, st, t, draws, st.byID[id.value]);
    } else {
      FinishReady(env, st, Fail(t), draws);
    }
  }

  lemma MessageSound(env: Env, st: Store, s: Sess, msg: Msg, draws: seq<Bytes>)
    requires Sound(env, st, s) && Waiting(st, s) && DrawsOk(draws)
    ensures var (st', s') := WholeMessage(env, st, s, msg, draws); Sound(env, st', s') && Grows(st, st')
  {
    MessageAlone(env, st, s, msg, draws);
    ReceiveKeeps(env, st, s, msg);
    FinishSound(env, st, Receive(env, st, s, msg), draws);
  }

  ghost predicate InboxOk(inbox: seq<Input>) {
    forall i | 0 <= i < |inbox| :: DrawsOk(inbox[i].draws)
  }

  /** A session served alone keeps the invariants of every run. */
  lemma {:induction false} SessionSound(env: Env, st: Store, s: Sess, inbox: seq<Input>)
    requires Sound(env, st, s) && Fit(st, s) && InboxOk(inbox)
    ensures var (st', s', out) := Session(env, st, s, inbox); Sound(env, st', s') && Grows(st, st')
    decreases |inbox|
  {
    if inbox != [] && !Over(s) {
      MessageSound(env, st, s, inbox[0].msg, inbox[0].draws);
      MessageFit(env, st, s, inbox[0].msg, inbox[0].draws);
      var (st', s') := WholeMessage(env, st, s, inbox[0].msg, inbox[0].draws);
      SessionSound(env, st', s', inbox[1..]);
      GrowsTransitive(st, st', Session(env, st', s', inbox[1..]).0);
    }
  }

  // ---------------------------------------------------------------- it is a run

  ghost function WorkSteps(env: Env, st: Store, s: Sess, k: nat, draws: seq<Bytes>): seq<Step>
    requires Refs(st, s)
    decreases |draws|, Left(s.pc)
  {
    if Halted(s, draws) then []
    else
      StepHolds(env, st, s, draws);
      var next := Advance(env, st, s, FirstDraw(draws));
      [Work(k, FirstDraw(draws))] + WorkSteps(env, next.0, next.1, k, LaterDraws(s, draws))
  }

  /** The state of the world once session k has worked to the end of its message. */
  ghost predicate Worked(env: Env, w: World, k: nat, draws: seq<Bytes>, v: World)
    requires k < |w.conns| && Refs(w.store, w.conns[k].sess)
  {
    var (st, s) := Finish(env, w.store, w.conns[k].sess, draws);
    !v.crashed && v.store == st && v.conns == w.conns[k := w.conns[k].(sess := s)]
  }

  /** A handler working alone is a run of the whole system in which only it moves, so all
      that holds of every run holds of it; and the other sessions stay as they were. */
  lemma {:induction false} FinishIsRun(env: Env, w: World, k: nat, draws: seq<Bytes>)
    requires k < |w.conns| && !w.crashed && Refs(w.store, w.conns[k].sess) && DrawsOk(draws)
    ensures Worked(env, w, k, draws, Exec(env, w, WorkSteps(env, w.store, w.conns[k].sess, k, draws)))
    decreases |draws|, Left(w.conns[k].sess.pc)
  {
    var s := w.conns[k].sess;
    if Halted(s, draws) {
      assert w.conns[k := w.conns[k].(sess := s)] == w.conns;
    } else {
      var a := Work(k, FirstDraw(draws));
      var v := Next(env, w, a);
      StepHolds(env, w.store, s, draws);
      WorkOnce(env, w, k, FirstDraw(draws));
      FinishIsRun(env, v, k, LaterDraws(s, draws));
      var more := WorkSteps(env, v.store, v.conns[k].sess, k, LaterDraws(s, draws));
      FirstThen(env, w, a, more);
      WorkedOn(env, w, k, draws, v, Exec(env, v, more));
    }
  }

  lemma WorkedOn(env: Env, w: World, k: nat, draws: seq<Bytes>, v: World, u: World)
    requires k < |w.conns| && Refs(w.store, w.conns[k].sess) && !Halted(w.conns[k].sess, draws)
    requires var (st, s') := Advance(env, w.store, w.conns[k].sess, FirstDraw(draws));
             v.store == st && v.conns == w.conns[k := w.conns[k].(sess := s')] && Refs(st, s')
    requires Worked(env, v, k, LaterDraws(w.conns[k].sess, draws), u)
    ensures Worked(env, w, k, draws, u)
  {
    StepHolds(env, w.store, w.conns[k].sess, draws);
    var s := Finish(env, w.store, w.conns[k].sess, draws).1;
    assert v.conns[k := v.conns[k].(sess := s)] == w.conns[k := w.conns[k].(sess := s)];
  }

  lemma FirstThen(env: Env, w: World, a: Step, more: seq<Step>)
    ensures Exec(env, w, [a] + more) == Exec(env, Next(env, w, a), more)
  {
    ExecSplits(env, w, [a] + more, 1);
    assert ([a] + more)[..1] == [a] && ([a] + more)[1..] == more && [a][..0] == [];
    assert Exec(env, w, [a]) == Next(env, Exec(env, w, []), a);
  }
}
