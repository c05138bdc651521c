/** The client object: a MemberMaker joins, polls for its fellow members into an array, and
    looks for itself in it. */
module Makers {
  import opened Types
  import opened GetReply
  import opened Clients

  // ---------------------------------------------------------------- what polling comes to

  /** GetAndMembers against the replies that arrive: the client at the end, and the requests
      it sent. When a reply does not arrive the read fails. */
  function Polls(env: Env, m: Maker, replies: seq<Msg>): (Maker, seq<Msg>)
    decreases |replies|
  {
    if !m.stage.ToGet? then (m, [])
    else
      var p := Prepare(m);
      if replies == [] then (p.(stage := Finished(false)), [Request(p)])
      else
        var (n, more) := Polls(env, AbsorbMembers(env, p, replies[0]), replies[1..]);
        (n, [Request(p)] + more)
  }

  /** At most 32 Gets are sent, whatever the replies. */
  lemma {:induction false} PollsBounded(env: Env, m: Maker, replies: seq<Msg>)
    requires m.gets < MAX_GET
    ensures |Polls(env, m, replies).1| <= MAX_GET - m.gets
    decreases |replies|
  {
    if m.stage.ToGet? && replies != [] {
      var n := AbsorbMembers(env, Prepare(m), replies[0]);
      if n.stage.ToGet? {
        PollsBounded(env, n, replies[1..]);
      }
    }
  }

  /** After k replies and with `sent` sent, the rest is still to come. */
  ghost predicate PollsOn(env: Env, m0: Maker, replies: seq<Msg>, m: Maker, k: nat, sent: seq<Msg>) {
    && k <= |replies|
    && var r := Polls(env, m, replies[k..]);
       Polls(env, m0, replies) == (r.0, sent + r.1)
  }

  lemma PollsStart(env: Env, m: Maker, replies: seq<Msg>)
    ensures PollsOn(env, m, replies, m, 0, [])
  {
    assert replies[0..] == replies;
    var r := Polls(env, m, replies);
    assert [] + r.1 == r.1;
  }

  lemma PollsStep(env: Env, m0: Maker, replies: seq<Msg>, m: Maker, k: nat, sent: seq<Msg>)
    requires PollsOn(env, m0, replies, m, k, sent) && k < |replies| && m.stage.ToGet?
    ensures var p := Prepare(m);
            PollsOn(env, m0, replies, AbsorbMembers(env, p, replies[k]), k + 1, sent + [Request(p)])
  {
    var p, rest := Prepare(m), replies[k..];
    assert rest[0] == replies[k] && rest[1..] == replies[k + 1..];
    var r := Polls(env, AbsorbMembers(env, p, replies[k]), replies[k + 1..]);
    assert sent + ([Request(p)] + r.1) == sent + [Request(p)] + r.1;
  }

  lemma PollsCut(env: Env, m0: Maker, replies: seq<Msg>, m: Maker, sent: seq<Msg>)
    requires PollsOn(env, m0, replies, m, |replies|, sent) && m.stage.ToGet?
    ensures var p := Prepare(m);
            Polls(env, m0, replies) == (p.(stage := Finished(false)), sent + [Request(p)])
  {
    assert replies[|replies|..] == [];
  }

  lemma PollsEnd(env: Env, m0: Maker, replies: seq<Msg>, m: Maker, k: nat, sent: seq<Msg>)
    requires PollsOn(env, m0, replies, m, k, sent) && !m.stage.ToGet?
    ensures Polls(env, m0, replies) == (m, sent)
  {
    assert sent + [] == sent;
  }

  lemma RefreshStep(table: Table, still: Mask, i: nat)
    requires i < |table|
    ensures Refresh(table[..i + 1], still) ==
            Refresh(table[..i], still) - if table[i].Some? then {i} else {}
  {
  }

  /** The slot loop before slot i: below i the table is as it shall be, above as it was. */
  ghost predicate Upto(goal: Table, table0: Table, table: Table, i: nat) {
    && |table| == |table0| == |goal| && i <= |table0|
    && forall k | 0 <= k < |table| :: table[k] == if k < i then goal[k] else table0[k]
  }

  lemma UptoStep(goal: Table, table0: Table, table: Table, i: nat)
    requires Upto(goal, table0, table, i) && i < |table0|
    ensures Upto(goal, table0, table[i := goal[i]], i + 1)
  {
  }

  lemma SlotGoal(env: Env, which: Mask, tokens: seq<Token>, table0: Table, i: nat)
    requires i < |table0|
    ensures Unpack(env, which, tokens, table0)[i] ==
            if i in which && Rank(which, i) < |tokens| then InfoFromToken(env, tokens[Rank(which, i)]) else table0[i]
  {
  }

  lemma UptoShort(env: Env, which: Mask, tokens: seq<Token>, table0: Table, table: Table, i: nat, still: Mask)
    requires Upto(Unpack(env, which, tokens, table0), table0, table, i)
    requires i < |table0| && i in which && Rank(which, i) == |tokens|
    ensures Short(which, tokens, |table0|) && table == Unpack(env, which, tokens, table0)
    ensures Remaining(env, which, tokens, i, still) == Remaining(env, which, tokens, |table0|, still)
  {
    ShortIsDone(env, which, tokens, i, |table0|, still);
    RankMono(which, i + 1, |table0|);
  }

  // ---------------------------------------------------------------- the object

  class MemberMaker {
    const env: Env
    const selfID: Bytes
    var clusterID: Bytes
    var clusterMaxSize: uint32
    var epCount: uint32
    var members: array<Option<MemberInfo>>
    var selfIndex: nat

    constructor (env: Env, selfID: Bytes, clusterID: Bytes, size: uint32, epCount: uint32)
      ensures this.env == env && fresh(members)
      ensures Matches(NewMaker(User, NO_TOKEN, selfID, "", 0, clusterID, size, epCount))
    {
      this.env, this.selfID, this.clusterID := env, selfID, clusterID;
      clusterMaxSize, this.epCount, selfIndex := size, epCount, 0;
      members := new Option<MemberInfo>[size](_ => None);
    }

    /** The object stands for this client, and its table has a slot per member. */
    ghost predicate Matches(m: Maker)
      reads this, members
    {
      && m.selfID == selfID && m.clusterID == clusterID && m.epCount == epCount && m.selfIndex == selfIndex
      && m.maxSize == clusterMaxSize == members.Length && m.table == members[..]
    }

    method JoinAndReply(ghost m: Maker, reply: Msg)
      requires Matches(m)
      modifies this`clusterMaxSize, this`members, this`epCount
      ensures Matches(Resize(m, reply)) && (members == old(members) || fresh(members))
    {
      var now := reply.clusterMaxSize;
      if clusterMaxSize != now {
        clusterMaxSize := now;
        members := new Option<MemberInfo>[now](_ => None);
      }
      epCount := reply.endPointCount;
    }

    /** The inner loop before each Get. */
    method ClearFilled(still0: Mask) returns (still: Mask)
      requires members.Length == clusterMaxSize
      ensures still == Refresh(members[..], still0)
    {
      still := still0;
      for i := 0 to clusterMaxSize
        invariant still == Refresh(members[..][..i], still0)
      {
        RefreshStep(members[..], still0, i);
        if members[i].Some? {
          still := still - {i};
        }
      }
      assert members[..][..clusterMaxSize] == members[..];
    }

    /** The slot loop: the offset into the token list is the rank of the bit. A missing token
        is an index out of range, after everything before it has been put in place. */
    method FillSlots(which: Mask, tokens: seq<Token>, still0: Mask) returns (crashed: bool, still: Mask, err: bool)
      requires members.Length == clusterMaxSize
      modifies members
      ensures crashed <==> Short(which, tokens, members.Length)
      ensures members[..] == Unpack(env, which, tokens, old(members[..]))
      ensures still == Remaining(env, which, tokens, members.Length, still0)
      ensures !crashed ==> err == LastFailed(env, which, tokens, members.Length)
    {
      ghost var table0 := members[..];
      ghost var goal := Unpack(env, which, tokens, table0);
      crashed, still, err := false, still0, false;
      var offset := 0;
      for i := 0 to clusterMaxSize
        invariant offset == Rank(which, i) <= |tokens|
        invariant Upto(goal, table0, members[..], i)
        invariant still == Remaining(env, which, tokens, i, still0)
        invariant err == LastFailed(env, which, tokens, i)
      {
        ghost var table := members[..];
        if i in which && offset >= |tokens| {
          UptoShort(env, which, tokens, table0, table, i, still0);
          crashed := true;
          return;
        }
        RemainingStep(env, which, tokens, i, still0);
        SlotGoal(env, which, tokens, table0, i);
        UptoStep(goal, table0, table, i);
        if i in which {
          members[i] := InfoFromToken(env, tokens[offset]);
          offset := offset + 1;
          err := members[i].None?;
          if !err {
            still := still - {i};
          }
        }
        assert members[..] == table[i := goal[i]];
      }
    }

    /** A round from the reply on, for the client this object stands for. */
    method TakeIn(ghost p: Maker, reply: Msg, still0: Mask) returns (crashed: bool, still: Mask, err: bool)
      requires Matches(p) && p.still == still0
      modifies members
      ensures Matches(Round(env, p, reply)) && still == Round(env, p, reply).still
      ensures crashed <==> Short(reply.which, reply.tokens, |p.table|)
      ensures !crashed ==> err == LastFailed(env, reply.which, reply.tokens, |p.table|)
    {
      crashed, still, err := FillSlots(reply.which, reply.tokens, still0);
    }

    /** The search at the end of GetAndMembers. */
    method FindSelf()
      requires members.Length == clusterMaxSize
      modifies this`selfIndex
      ensures var self := SelfSlot(members[..], selfID, 0);
              selfIndex == if self.Some? then self.value else old(selfIndex)
    {
      for i := 0 to clusterMaxSize
        invariant forall j | 0 <= j < i :: members[j].None? || members[j].value.id != selfID
        invariant selfIndex == old(selfIndex)
      {
        if members[i].Some? && members[i].value.id == selfID {
          selfIndex := i;
          return;
        }
      }
    }

    /** GetAndMembers: at most MAX_GET rounds while anything is missing, then the search. It
        ends early if a reply does not come or runs the slot loop out of range. */
    method GetAndMembers(ghost m0: Maker, replies: seq<Msg>) returns (crashed: bool, lost: bool, err: bool, sent: seq<Msg>)
      requires Matches(m0)
      modifies this`selfIndex, members
      ensures var (n, out) := Polls(env, StartGets(m0), replies);
              && sent == out && Matches(n)
              && (n.stage == ToBye <==> !crashed && !lost && (!err || m0.kind.Boot?))
      ensures |sent| <= MAX_GET
    {
      var still := LowNMap(clusterMaxSize);
      ghost var start := StartGets(m0);
      ghost var m := m0.(still := still, gets := 0, stage := ToGet);
      PollsStart(env, start, replies);
      PollsBounded(env, start, replies);
      var count, k := 0, 0;
      crashed, lost, err, sent := false, false, false, [];
      while count < MAX_GET && still != {}
        invariant m.stage.ToGet? && m.still == still && m.gets == count && Matches(m)
        invariant m.kind == m0.kind && !crashed && !lost
        invariant PollsOn(env, start, replies, Settle(m, err), k, sent)
        decreases MAX_GET - count
      {
        still := ClearFilled(still);
        ghost var p, before := Prepare(m), sent;
        var request := Blank(OP_GET_CLUSTER).(clusterID := Some(clusterID), which := still);
        assert request == Request(p);
        sent := sent + [request];
        if k == |replies| {
          PollsCut(env, start, replies, m, before);
          lost, err := true, true;
          return;
        }
        PollsStep(env, start, replies, m, k, before);
        var reply := replies[k];
        crashed, still, err := TakeIn(p, reply, still);
        k, count := k + 1, count + 1;
        if crashed {
          PollsEnd(env, start, replies, AbsorbMembers(env, p, reply), k, sent);
          return;
        }
        m := Round(env, p, reply);
      }
      PollsEnd(env, start, replies, Leave(m, err), k, sent);
      Depart(m, err);
    }

    method Depart(ghost m: Maker, err: bool)
      requires Matches(m)
      modifies this`selfIndex
      ensures Matches(Leave(m, err))
    {
      if !err {
        FindSelf();
      }
    }
  }
}
