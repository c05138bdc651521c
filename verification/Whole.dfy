/** Whole messages: what a handler comes to when nobody interrupts it. */
module Whole {
  import opened Types
  import opened Stores
  import opened Dispatch
  import opened Handlers

  /** The position of the first draw the filter does not know. */
  function FirstFresh(env: Env, st: Store, draws: seq<Bytes>): (r: Option<nat>)
    ensures r.Some? ==> r.value < |draws| && !Has(env, st, draws[r.value])
                        && forall j | 0 <= j < r.value :: Has(env, st, draws[j])
    ensures r.None? ==> forall j | 0 <= j < |draws| :: Has(env, st, draws[j])
  {
    if draws == [] then None
    else if !Has(env, st, draws[0]) then Some(0)
    else match FirstFresh(env, st, draws[1..])
         case None => None
         case Some(i) => Some(i + 1)
  }

  /** doClientMsg. A session left at Issue is still drawing. */
  function WholeMember(env: Env, st: Store, t: Sess, draws: seq<Bytes>): (Store, Sess) {
    match Verified(env, t.msgIn.memberSpecs)
    case None => (st, Fail(t))
    case Some(who) =>
      match t.msgIn.memberSpecs.id
      case None => NewID(env, st, t, draws, who)
      case Some(id) => if ValidID(id) then OwnID(env, st, t, id, who) else (st, Fail(t))
  }

  function NewID(env: Env, st: Store, t: Sess, draws: seq<Bytes>, who: Applicant): (Store, Sess) {
    match FirstFresh(env, st, draws)
    case None => (st, t.(pc := Issue(ForClient(who))))
    case Some(i) => (InsertBits(env, st, draws[i]), Admitted(env, t, draws[i], who))
  }

  function OwnID(env: Env, st: Store, t: Sess, id: Bytes, who: Applicant): (Store, Sess) {
    (if Has(env, st, id) then st else InsertBits(env, st, id), Admitted(env, t, id, who))
  }

  /** doCreateMsg. */
  function WholeCreate(env: Env, st: Store, t: Sess, draws: seq<Bytes>): (Store, Sess)
    requires Indexed(st)
  {
    if t.msgIn.clusterName in st.byName then (st, ReceiveCreate(st, t)) else NewCluster(env, st, t, draws)
  }

  function NewCluster(env: Env, st: Store, t: Sess, draws: seq<Bytes>): (Store, Sess) {
    match FirstFresh(env, st, draws)
    case None => (st, t.(pc := Issue(ForCluster)))
    case Some(i) => Lists(InsertBits(env, st, draws[i]), t, Created(t.msgIn, draws[i]))
  }

  function Lists(st: Store, t: Sess, c: Cluster): (Store, Sess) {
    (AddCluster(st, c).0, Added(t, c, AddCluster(st, c).1))
  }

  /** Uninterrupted, a Create is refused exactly when it has no name and a cluster already has
      the name that stands in for none: the look-up is of the empty name, which no cluster has. */
  lemma CreateRefusedExactlyWhen(env: Env, st: Store, t: Sess, draws: seq<Bytes>)
    requires StoreOk(env, st) && t.entry == CLIENT_DETAILS_RCVD
    ensures WholeCreate(env, st, t, draws).1.entry == IN_CLOSED <==>
            t.msgIn.clusterName == "" && "xlCluster" in st.byName && FirstFresh(env, st, draws).Some?
  {
    var name, first := t.msgIn.clusterName, FirstFresh(env, st, draws);
    NoNameless(env, st);
    if first.Some? {
      UnknownIsUnlisted(env, st, draws[first.value]);
    }
  }

  lemma NoNameless(env: Env, st: Store)
    requires StoreOk(env, st)
    ensures "" !in st.byName
  {
    forall n | n in st.byName ensures n != "" {
      assert Listed(env, st.bits, st.clusters[st.byName[n]]);
    }
  }

  lemma UnknownIsUnlisted(env: Env, st: Store, id: Bytes)
    requires StoreOk(env, st) && !Has(env, st, id)
    ensures id !in st.byID
  {
    forall d | d in st.byID ensures Has(env, st, d) {
      assert Listed(env, st.bits, st.clusters[st.byID[d]]);
    }
  }

  /** doJoinMsg. */
  function WholeJoin(st: Store, t: Sess): (Store, Sess)
    requires Refs(st, ReceiveJoin(st, t))
  {
    match JoinTarget(st, t)
    case None => (st, t.(pc := Panicked))
    case Some(i) => JoinAt(st, t, i)
  }

  function JoinAt(st: Store, t: Sess, i: nat): (Store, Sess)
    requires i < |st.clusters| && t.client.Some?
  {
    if AddMember(st.clusters[i], t.client.value).Some?
    then (WithMember(st, i, t.client.value), Joined(t, i, st.clusters[i]))
    else (st, Fail(t))
  }

  /** Nothing but the name and the cluster's own ID can refuse a member; in particular the
      size cannot, so a cluster stays within its size exactly when it was below it or refused. */
  lemma JoinIgnoresSize(st: Store, t: Sess, i: nat)
    requires Refs(st, ReceiveJoin(st, t)) && JoinTarget(st, t) == Some(i)
    ensures var (st', s') := WholeJoin(st, t);
            var (c, accepted) := (st.clusters[i], s'.entry == JOIN_RCVD);
            && (accepted <==> t.client.value.base.name !in c.byName && c.id !in c.byID)
            && i < |st'.clusters| && st'.clusters[i].maxSize == c.maxSize
            && (|st'.clusters[i].members| <= c.maxSize <==>
                  |c.members| < c.maxSize || (|c.members| == c.maxSize && !accepted))
  {
    var m := t.client.value;
    assert Append(st.clusters[i], m).members == st.clusters[i].members + [m];
  }

  /** doGetMsg. */
  function WholeGet(env: Env, st: Store, t: Sess): Sess
    requires Refs(st, ReceiveGet(st, t))
  {
    var id := t.msgIn.clusterID;
    if id.Some? && id.value in st.byID then GetFrom(env, t, st.clusters[st.byID[id.value]].members) else Fail(t)
  }

  function GetFrom(env: Env, t: Sess, members: seq<ClientInfo>): Sess {
    Sent(env, t, members, if |members| > 64 then 64 else |members|)
  }

  // ---------------------------------------------------------------- one message

  /** What a handler finds in a session that waits for a message. */
  ghost predicate Waiting(st: Store, s: Sess) {
    && s.pc.Ready? && s.entry != IN_CLOSED && Indexed(st)
    && (s.cluster.Some? ==> s.cluster.value < |st.clusters|)
    && (CLIENT_DETAILS_RCVD <= s.entry <= JOIN_RCVD ==> s.client.Some?)
  }

  lemma JoinRefs(st: Store, s: Sess, t: Sess)
    requires Waiting(st, s) && t.entry == s.entry && t.client == s.client && t.cluster == s.cluster
    ensures Reaches(t.entry, t.tag, DoJoin) ==> Refs(st, ReceiveJoin(st, t))
    ensures Refs(st, ReceiveGet(st, t))
  {
  }

  /** One message from receipt to reply. */
  ghost function WholeMessage(env: Env, st: Store, s: Sess, msg: Msg, draws: seq<Bytes>): (Store, Sess)
    requires Waiting(st, s)
  {
    var t := Heard(s, msg);
    if !InTable(t.entry, t.tag) then (st, t.(pc := Panicked))
    else
      TableReaches(t.entry, t.tag);
      JoinRefs(st, s, t);
      match TABLE[t.entry][t.tag]
      case BadCombo => (st, Fail(t))
      case DoClient => WholeMember(env, st, t, draws)
      case DoCreate => WholeCreate(env, st, t, draws)
      case DoJoin => WholeJoin(st, t)
      case DoGet => (st, WholeGet(env, st, t))
      case DoBye => (st, Succeed(t, BYE_RCVD, Blank(OP_ACK)))
  }

  /** A message is answered once if it comes to an end, and not at all otherwise. */
  predicate Once(t: Sess, s: Sess) {
    (s.pc.Ready? <==> s.reply.Some?) && s.said == t.said + if s.pc.Ready? then 1 else 0
  }

  lemma MemberOnce(env: Env, st: Store, t: Sess, draws: seq<Bytes>)
    requires t.reply.None?
    ensures Once(t, WholeMember(env, st, t, draws).1)
  {
  }

  lemma CreateOnce(env: Env, st: Store, t: Sess, draws: seq<Bytes>)
    requires t.reply.None? && Indexed(st)
    ensures Once(t, WholeCreate(env, st, t, draws).1)
  {
  }

  lemma JoinOnce(st: Store, t: Sess)
    requires t.reply.None? && Refs(st, ReceiveJoin(st, t))
    ensures Once(t, WholeJoin(st, t).1)
  {
  }

  lemma GetOnce(env: Env, st: Store, t: Sess)
    requires t.reply.None? && Refs(st, ReceiveGet(st, t))
    ensures Once(t, WholeGet(env, st, t))
  {
  }

  lemma MessageOnce(env: Env, st: Store, s: Sess, msg: Msg, draws: seq<Bytes>)
    requires Waiting(st, s)
    ensures Once(s, WholeMessage(env, st, s, msg, draws).1)
  {
    var t := Heard(s, msg);
    if InTable(t.entry, t.tag) {
      TableReaches(t.entry, t.tag);
      JoinRefs(st, s, t);
      match TABLE[t.entry][t.tag]
      case DoClient => MemberOnce(env, st, t, draws);
      case DoCreate => CreateOnce(env, st, t, draws);
      case DoJoin => JoinOnce(st, t);
      case DoGet => GetOnce(env, st, t);
      case _ =>
    }
  }

  // ---------------------------------------------------------------- a whole session

  /** The session is over, or in a state the next message finds in order. */
  ghost predicate Fit(st: Store, s: Sess) {
    Indexed(st) && (s.pc.Ready? && s.entry != IN_CLOSED ==> Waiting(st, s))
  }

  lemma MemberFit(env: Env, st: Store, s: Sess, t: Sess, draws: seq<Bytes>)
    requires Waiting(st, s) && t.cluster == s.cluster
    ensures var (st', s') := WholeMember(env, st, t, draws); Fit(st', s')
  {
  }

  lemma CreateFit(env: Env, st: Store, s: Sess, t: Sess, draws: seq<Bytes>)
    requires Waiting(st, s) && t.cluster == s.cluster && t.client == s.client && s.client.Some?
    ensures var (st', s') := WholeCreate(env, st, t, draws); Fit(st', s')
  {
    var first := FirstFresh(env, st, draws);
    if first.Some? {
      AddClusterIndexed(InsertBits(env, st, draws[first.value]), Created(t.msgIn, draws[first.value]));
    }
  }

  lemma JoinFit(st: Store, s: Sess, t: Sess)
    requires Waiting(st, s) && t.client == s.client && Refs(st, ReceiveJoin(st, t))
    ensures var (st', s') := WholeJoin(st, t); Fit(st', s')
  {
    var i := JoinTarget(st, t);
    if i.Some? {
      WithMemberIndexed(st, i.value, t.client.value);
    }
  }

  lemma MessageFit(env: Env, st: Store, s: Sess, msg: Msg, draws: seq<Bytes>)
    requires Waiting(st, s)
    ensures var (st', s') := WholeMessage(env, st, s, msg, draws); Fit(st', s')
  {
    var t := Heard(s, msg);
    if InTable(t.entry, t.tag) {
      TableReaches(t.entry, t.tag);
      JoinRefs(st, s, t);
      match TABLE[t.entry][t.tag]
      case DoClient => MemberFit(env, st, s, t, draws);
      case DoCreate => CreateFit(env, st, s, t, draws);
      case DoJoin => JoinFit(st, s, t);
      case _ =>
    }
  }

  /** One incoming message, and what the random source yields while it is handled. */
  datatype Input = Input(msg: Msg, draws: seq<Bytes>)

  predicate Over(s: Sess) {
    !s.pc.Ready? || s.entry == IN_CLOSED
  }

  function Said(s: Sess): seq<Msg> {
    if s.reply.Some? then [s.reply.value] else []
  }

  /** A whole session, message after message: it ends with the input, an error reply, a
      panic, or a random source that yields nothing new. The last part is what was said. */
  ghost function Session(env: Env, st: Store, s: Sess, inbox: seq<Input>): (r: (Store, Sess, seq<Msg>))
    requires Fit(st, s)
    ensures Fit(r.0, r.1)
    decreases |inbox|
  {
    if inbox == [] || Over(s) then (st, s, [])
    else
      MessageFit(env, st, s, inbox[0].msg, inbox[0].draws);
      var (st', s') := WholeMessage(env, st, s, inbox[0].msg, inbox[0].draws);
      var (st'', s'', out) := Session(env, st', s', inbox[1..]);
      (st'', s'', Said(s') + out)
  }

  /** After i messages and with `out` said, the rest of the session is still to come. */
  ghost predicate Continues(env: Env, st0: Store, inbox: seq<Input>, st: Store, s: Sess, i: nat, out: seq<Msg>) {
    && i <= |inbox| && Fit(st0, NewSess()) && Fit(st, s)
    && var r := Session(env, st, s, inbox[i..]);
       Session(env, st0, NewSess(), inbox) == (r.0, r.1, out + r.2)
  }

  lemma SessionStarts(env: Env, st: Store, inbox: seq<Input>)
    requires Indexed(st)
    ensures Continues(env, st, inbox, st, NewSess(), 0, [])
  {
    assert inbox[0..] == inbox;
    var r := Session(env, st, NewSess(), inbox);
    assert [] + r.2 == r.2;
  }

  lemma SessionUnfolds(env: Env, st: Store, s: Sess, inbox: seq<Input>)
    requires Fit(st, s) && inbox != [] && !Over(s)
    ensures var (st', s') := WholeMessage(env, st, s, inbox[0].msg, inbox[0].draws);
            && Fit(st', s')
            && var r := Session(env, st', s', inbox[1..]);
               Session(env, st, s, inbox) == (r.0, r.1, Said(s') + r.2)
  {
    MessageFit(env, st, s, inbox[0].msg, inbox[0].draws);
  }

  lemma SessionGoesOn(env: Env, st0: Store, inbox: seq<Input>, st: Store, s: Sess, i: nat, out: seq<Msg>)
    requires Continues(env, st0, inbox, st, s, i, out) && i < |inbox| && !Over(s)
    ensures var (st', s') := WholeMessage(env, st, s, inbox[i].msg, inbox[i].draws);
            Continues(env, st0, inbox, st', s', i + 1, out + Said(s'))
  {
    var rest := inbox[i..];
    assert rest[0] == inbox[i] && rest[1..] == inbox[i + 1..];
    SessionUnfolds(env, st, s, rest);
    var (st', s') := WholeMessage(env, st, s, inbox[i].msg, inbox[i].draws);
    var r := Session(env, st', s', inbox[i + 1..]);
    assert out + (Said(s') + r.2) == out + Said(s') + r.2;
  }

  lemma SessionEnds(env: Env, st0: Store, inbox: seq<Input>, st: Store, s: Sess, i: nat, out: seq<Msg>)
    requires Continues(env, st0, inbox, st, s, i, out) && (i == |inbox| || Over(s))
    ensures Session(env, st0, NewSess(), inbox) == (st, s, out)
  {
    assert out + [] == out;
  }
}
