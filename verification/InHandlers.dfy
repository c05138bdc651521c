/** The handler of one connection, as the object it is, over the shared registry object. */
module InHandlers {
  import opened Types
  import opened Stores
  import opened Dispatch
  import opened GetReply
  import opened Handlers
  import opened Signing
  import opened Whole
  import opened Objects

  /** How a message ends: with a reply, in an endless draw, or in a panic. */
  datatype Status = Served | Drawing | Crashed

  class InHandler {
    const reg: Registry
    var thisClient: Option<ClientInfo>
    var cluster: RegCluster?
    var entryState: int
    var exitState: int
    var msgIn: Msg
    var msgOut: Option<Msg>
    var errOut: bool

    constructor (reg: Registry)
      ensures this.reg == reg && Matches(NewSess())
    {
      this.reg := reg;
      thisClient, cluster, entryState, exitState := None, null, HELLO_RCVD, HELLO_RCVD;
      msgIn, msgOut, errOut := Blank(1), None, false;
    }

    ghost predicate Holds(c: Option<nat>)
      reads this, reg
    {
      match c
      case None => cluster == null
      case Some(i) => i < |reg.clusters| && cluster == reg.clusters[i]
    }

    /** The object stands for this session. A closed one may still point to a cluster that was
        turned away. */
    ghost predicate Matches(s: Sess)
      reads this, reg
    {
      entryState == s.entry && thisClient == s.client && (entryState != IN_CLOSED ==> Holds(s.cluster))
    }

    /** A handler is about to run for this session. */
    ghost predicate Called(t: Sess)
      reads this, reg, reg.listed
    {
      reg.Valid() && Matches(t) && entryState != IN_CLOSED && msgIn == t.msgIn
    }

    /** What a handler leaves behind, before Start turns it into a reply and a state. */
    ghost predicate Outcome(s: Sess)
      reads this, reg
    {
      && thisClient == s.client
      && if errOut then s.entry == IN_CLOSED && s.reply == Some(Blank(OP_ERROR))
         else s.entry == exitState != IN_CLOSED && s.reply == msgOut && msgOut.Some? && Holds(s.cluster)
    }

    ghost predicate After(r: (Store, Sess), status: Status)
      reads this, reg, reg.listed
    {
      && reg.Valid() && reg.model == r.0
      && match status
         case Served => r.1.pc.Ready? && Outcome(r.1)
         case Drawing => r.1.pc.Issue?
         case Crashed => r.1.pc.Panicked?
    }

    method SetReply(reply: Msg, exit: int)
      modifies this`msgOut, this`exitState, this`errOut
      ensures msgOut == Some(reply) && exitState == exit && !errOut
    {
      msgOut, exitState, errOut := Some(reply), exit, false;
    }

    method BadCombo(ghost t: Sess)
      requires Called(t)
      modifies this`errOut
      ensures After((reg.model, Fail(t)), Served)
    {
      errOut := true;
    }

    method DoByeMsg(ghost t: Sess)
      requires Called(t)
      modifies this`msgOut, this`exitState, this`errOut
      ensures After((reg.model, Succeed(t, BYE_RCVD, Blank(OP_ACK))), Served)
    {
      SetReply(Blank(OP_ACK), BYE_RCVD);
    }

    // -------------------------------------------------------------- Member

    method DoClientMsg(ghost t: Sess, draws: seq<Bytes>) returns (status: Status)
      requires Called(t)
      modifies this`thisClient, this`msgOut, this`exitState, this`errOut, reg`idBits, reg`idCount, reg`model
      ensures After(WholeMember(reg.env, old(reg.model), t, draws), status)
    {
      var who := CheckToken(reg.env, msgIn.memberSpecs);
      if who.None? {
        errOut := true;
        return Served;
      }
      match msgIn.memberSpecs.id {
        case None => status := GiveID(draws, who.value, t);
        case Some(id) =>
          if !ValidID(id) {
            errOut := true;
            return Served;
          }
          TakeID(id, who.value, t);
          status := Served;
      }
    }

    /** The client has no ID: it gets a new one. */
    method GiveID(draws: seq<Bytes>, who: Applicant, ghost t: Sess) returns (status: Status)
      requires Called(t)
      modifies this`thisClient, this`msgOut, this`exitState, this`errOut, reg`idBits, reg`idCount, reg`model
      ensures After(NewID(reg.env, old(reg.model), t, draws, who), status)
    {
      var id, rest := reg.InsertUniqueNodeID(draws);
      if id.None? {
        return Drawing;
      }
      Admit(id.value, who, t);
      status := Served;
    }

    /** The client brought an ID: it is put into the filter if that does not know it. */
    method TakeID(id: Bytes, who: Applicant, ghost t: Sess)
      requires Called(t)
      modifies this`thisClient, this`msgOut, this`exitState, this`errOut, reg`idBits, reg`idCount, reg`model
      ensures After(OwnID(reg.env, old(reg.model), t, id, who), Served)
    {
      var found := reg.ContainsID(id);
      if !found {
        var inUse := reg.InsertID(id);
      }
      Admit(id, who, t);
    }

    /** NewClientInfo and the MemberOK reply. */
    method Admit(nodeID: Bytes, who: Applicant, ghost t: Sess)
      requires Called(t)
      modifies this`thisClient, this`msgOut, this`exitState, this`errOut
      ensures After((reg.model, Admitted(reg.env, t, nodeID, who)), Served)
    {
      if !reg.env.baseOk(who.name, nodeID, who.ck, who.sk) {
        errOut := true;
      } else {
        thisClient := Some(ClientInfo(who.attrs, Slice(who.ends), BaseNode(who.name, nodeID, who.ck, who.sk)));
        SetReply(Blank(OP_MEMBER_OK).(memberID := nodeID, memberAttrs := who.attrs), CLIENT_DETAILS_RCVD);
      }
    }

    // -------------------------------------------------------------- Create

    /** An existing cluster answers for itself; otherwise a new one is made. */
    method DoCreateMsg(ghost t: Sess, draws: seq<Bytes>) returns (status: Status)
      requires Called(t)
      modifies this`cluster, this`msgOut, this`exitState, this`errOut, reg
      ensures After(WholeCreate(reg.env, old(reg.model), t, draws), status)
      ensures fresh(reg.listed - old(reg.listed))
    {
      var c := reg.FindByName(msgIn.clusterName);
      if c != null {
        SetReply(ClusterReply(OP_CREATE_REPLY, c.View(), c.attrs), CREATE_REQUEST_RCVD);
        status := Served;
      } else {
        status := CreateNew(t, draws);
      }
    }

    method CreateNew(ghost t: Sess, draws: seq<Bytes>) returns (status: Status)
      requires Called(t)
      modifies this`cluster, this`msgOut, this`exitState, this`errOut, reg
      ensures After(NewCluster(reg.env, old(reg.model), t, draws), status)
      ensures fresh(reg.listed - old(reg.listed))
    {
      var id, rest := reg.InsertUniqueNodeID(draws);
      if id.None? {
        return Drawing;
      }
      Build(t, id.value);
      status := Served;
    }

    /** A new cluster of the proposed size, brought into 2..64. */
    method Build(ghost t: Sess, id: Bytes)
      requires Called(t)
      modifies this`cluster, this`msgOut, this`exitState, this`errOut, reg
      ensures After(Lists(old(reg.model), t, Created(t.msgIn, id)), Served)
      ensures fresh(reg.listed - old(reg.listed))
    {
      var size := msgIn.clusterMaxSize;
      if size < MIN_CLUSTER_SIZE {
        size := MIN_CLUSTER_SIZE;
      } else if size > MAX_CLUSTER_SIZE {
        size := MAX_CLUSTER_SIZE;
      }
      var rc := RegCluster.Make(msgIn.clusterName, id, 0, size, msgIn.endPointCount);
      List(t, rc);
    }

    /** AddCluster and the CreateReply, which echoes the proposed attrs. */
    method List(ghost t: Sess, c: RegCluster)
      requires Called(t)
      modifies this`cluster, this`msgOut, this`exitState, this`errOut, reg`clusters, reg`clustersByName, reg`clustersByID, reg`listed, reg`model
      ensures After(Lists(old(reg.model), t, c.View()), Served)
      ensures reg.listed <= old(reg.listed) + {c}
    {
      var index := reg.AddCluster(c);
      CreateReply(t, c, index);
    }

    method CreateReply(ghost t: Sess, c: RegCluster, index: int)
      requires msgIn == t.msgIn && thisClient == t.client
      requires index >= 0 ==> index < |reg.clusters| && c == reg.clusters[index]
      modifies this`cluster, this`msgOut, this`exitState, this`errOut
      ensures Outcome(Added(t, c.View(), index))
    {
      cluster := c;
      if index < 0 {
        errOut := true;
      } else {
        SetReply(ClusterReply(OP_CREATE_REPLY, c.View(), msgIn.clusterAttrs), CREATE_REQUEST_RCVD);
      }
    }

    // -------------------------------------------------------------- Join

    /** The cluster a Join means, or nil. */
    method FindCluster(ghost t: Sess) returns (c: RegCluster?)
      requires Called(t)
      ensures match JoinTarget(reg.model, t)
              case None => c == null
              case Some(i) => i < |reg.clusters| && c == reg.clusters[i]
    {
      if msgIn.clusterID.None? && msgIn.clusterName == "" {
        c := cluster;
      } else if msgIn.clusterID.Some? {
        c := reg.FindByID(msgIn.clusterID.value);
      } else {
        c := reg.FindByName(msgIn.clusterName);
      }
    }

    method DoJoinMsg(ghost t: Sess) returns (status: Status)
      requires Called(t) && Refs(reg.model, ReceiveJoin(reg.model, t))
      modifies this`cluster, this`msgOut, this`exitState, this`errOut, reg`model, reg.listed
      ensures After(WholeJoin(old(reg.model), t), status)
    {
      var c := FindCluster(t);
      if c == null {
        return Crashed;
      }
      AddTo(t, JoinTarget(reg.model, t).value, c);
      status := Served;
    }

    method AddTo(ghost t: Sess, ghost i: nat, c: RegCluster)
      requires Called(t) && thisClient.Some? && i < |reg.clusters| && reg.clusters[i] == c && i < |reg.model.clusters|
      modifies this`cluster, this`msgOut, this`exitState, this`errOut, reg`model, c
      ensures After(JoinAt(old(reg.model), t, i), Served)
    {
      ghost var was := reg.model.clusters[i];
      var ok := reg.AddMemberTo(i, c, thisClient.value);
      if !ok {
        errOut := true;
      } else {
        JoinReply(t, i, c, was);
      }
    }

    method JoinReply(ghost t: Sess, ghost i: nat, c: RegCluster, ghost was: Cluster)
      requires thisClient == t.client && i < |reg.clusters| && reg.clusters[i] == c
      requires was.id == c.id && was.attrs == c.attrs && was.maxSize == c.maxSize && was.epCount == c.epCount
      modifies this`cluster, this`msgOut, this`exitState, this`errOut
      ensures Outcome(Joined(t, i, was))
    {
      cluster := c;
      SetReply(ClusterReply(OP_JOIN_REPLY, c.View(), c.attrs), JOIN_RCVD);
    }

    // -------------------------------------------------------------- Get

    method DoGetMsg(ghost t: Sess)
      requires Called(t) && Refs(reg.model, ReceiveGet(reg.model, t))
      modifies this`msgOut, this`exitState, this`errOut
      ensures After((reg.model, WholeGet(reg.env, reg.model, t)), Served)
    {
      var c := FindForGet(t);
      if c == null {
        errOut := true;
      } else {
        MembersReply(t, c);
      }
    }

    method FindForGet(ghost t: Sess) returns (c: RegCluster?)
      requires reg.Valid() && msgIn == t.msgIn && Refs(reg.model, ReceiveGet(reg.model, t))
      ensures WholeGet(reg.env, reg.model, t) == if c == null then Fail(t) else GetFrom(reg.env, t, c.members)
    {
      c := null;
      if msgIn.clusterID.Some? {
        c := reg.FindByID(msgIn.clusterID.value);
      }
    }

    method MembersReply(ghost t: Sess, c: RegCluster)
      requires Matches(t) && entryState != IN_CLOSED && msgIn == t.msgIn
      modifies this`msgOut, this`exitState, this`errOut
      ensures Outcome(GetFrom(reg.env, t, c.members))
    {
      var size := |c.members|;
      if size > 64 {
        size := 64;
      }
      var which, tokens := PackTokens(reg.env, c.members, msgIn.which, size);
      SetReply(Handlers.MembersReply(msgIn, (which, tokens)), JOIN_RCVD);
    }

    // -------------------------------------------------------------- one message

    method Act(ghost s: Sess, ghost t: Sess, h: Handler, draws: seq<Bytes>) returns (status: Status)
      requires Called(t) && Waiting(reg.model, s) && t == Heard(s, msgIn)
      requires InTable(t.entry, t.tag) && h == TABLE[t.entry][t.tag]
      modifies this`thisClient, this`cluster, this`msgOut, this`exitState, this`errOut, reg, reg.listed
      ensures After(WholeMessage(reg.env, old(reg.model), s, t.msgIn, draws), status)
      ensures fresh(reg.listed - old(reg.listed))
    {
      TableReaches(t.entry, t.tag);
      JoinRefs(reg.model, s, t);
      match h {
        case BadCombo => BadCombo(t); status := Served;
        case DoClient => status := DoClientMsg(t, draws);
        case DoCreate => status := DoCreateMsg(t, draws);
        case DoJoin => status := DoJoinMsg(t);
        case DoGet => DoGetMsg(t); status := Served;
        case DoBye => DoByeMsg(t); status := Served;
      }
    }

    /** One turn of Start's loop, for the session this handler stands for. */
    method Serve(ghost s: Sess, msg: Msg, draws: seq<Bytes>) returns (status: Status)
      requires reg.Valid() && Matches(s) && Waiting(reg.model, s)
      modifies this, reg, reg.listed
      ensures Answered(WholeMessage(reg.env, old(reg.model), s, msg, draws), status)
      ensures fresh(reg.listed - old(reg.listed))
    {
      msgIn := msg;
      var tag := Op2Tag(msg.op);
      if tag < 0 || tag > 4 {
        errOut := true;
      }
      if !InTable(entryState, tag) {
        return Crashed;
      }
      status := Act(s, Heard(s, msg), TABLE[entryState][tag], draws);
      Respond();
    }

    /** The response part of the loop: an error becomes the reply and closes the session. */
    method Respond()
      modifies this`msgOut, this`exitState, this`errOut, this`entryState
      ensures errOut == false && entryState == exitState
      ensures old(errOut) ==> msgOut == Some(Blank(OP_ERROR)) && exitState == IN_CLOSED
      ensures !old(errOut) ==> msgOut == old(msgOut) && exitState == old(exitState)
    {
      if errOut {
        msgOut := Some(Blank(OP_ERROR));
        errOut := false;
        exitState := IN_CLOSED;
      }
      entryState := exitState;
    }

    /** Where the handler stands after a message: it still stands for the session, and its
        outgoing message is the session's reply. */
    ghost predicate Answered(r: (Store, Sess), status: Status)
      reads this, reg, reg.listed
    {
      && reg.Valid() && reg.model == r.0 && Stands(r.1, status)
      && (status.Served? ==> msgOut == r.1.reply && msgOut.Some?)
    }

    // -------------------------------------------------------------- the loop

    /** Start, after the hello: message after message until the input ends, the session is
        closed, the draw does not end, or the goroutine panics. */
    method Start(inbox: seq<Input>) returns (outbox: seq<Msg>, status: Status)
      requires reg.Valid() && Matches(NewSess())
      modifies this, reg, reg.listed
      ensures reg.Valid() && Fit(old(reg.model), NewSess())
      ensures var (st, s, out) := Session(reg.env, old(reg.model), NewSess(), inbox);
              && reg.model == st && outbox == out
              && Stands(s, status)
    {
      ghost var s, st0 := NewSess(), reg.model;
      SessionStarts(reg.env, st0, inbox);
      var i := 0;
      outbox, status := [], Served;
      while i < |inbox| && status == Served && entryState != IN_CLOSED
        invariant 0 <= i <= |inbox| && reg.Valid() && fresh(reg.listed - old(reg.listed))
        invariant Stands(s, status)
        invariant Continues(reg.env, st0, inbox, reg.model, s, i, outbox)
        decreases |inbox| - i
      {
        ghost var r := WholeMessage(reg.env, reg.model, s, inbox[i].msg, inbox[i].draws);
        SessionGoesOn(reg.env, st0, inbox, reg.model, s, i, outbox);
        MessageOnce(reg.env, reg.model, s, inbox[i].msg, inbox[i].draws);
        status := Serve(s, inbox[i].msg, inbox[i].draws);
        var said := if status == Served then [msgOut.value] else [];
        assert said == Said(r.1);
        outbox := outbox + said;
        s, i := r.1, i + 1;
      }
      SessionEnds(reg.env, st0, inbox, reg.model, s, i, outbox);
    }

    ghost predicate Stands(s: Sess, status: Status)
      reads this, reg
    {
      match status
      case Served => s.pc.Ready? && Matches(s)
      case Drawing => s.pc.Issue?
      case Crashed => s.pc.Panicked?
    }
  }
}
