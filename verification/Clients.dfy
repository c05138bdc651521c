/** The client side as values: a MemberMaker, the request it sends next, and what it makes
    of the reply. */
module Clients {
  import opened Types
  import opened GetReply

  /** The solo, admin and user scripts, and the bootstrapper's, which joins and polls like
      the user's but says Bye even when polling ended in an error. */
  datatype Kind = Solo | Admin | User | Boot

  predicate Joins(kind: Kind) {
    kind.User? || kind.Boot?
  }

  datatype Stage = ToMember | ToCreate | ToJoin | ToGet | ToBye | Finished(ok: bool)

  datatype Maker = Maker(
    kind: Kind, hello: Token, selfID: Bytes,
    clusterName: string, clusterAttrs: uint64, clusterID: Bytes,
    maxSize: uint32, epCount: uint32,
    table: Table, still: Mask, gets: nat, selfIndex: nat,
    stage: Stage, waiting: bool)

  const MAX_GET := 32

  function Empty(n: nat): (t: Table)
    ensures |t| == n && forall i | 0 <= i < n :: t[i].None?
  {
    seq(n, _ => None)
  }

  /** NewMemberMaker: the table has as many slots as the proposed size. */
  function NewMaker(kind: Kind, hello: Token, selfID: Bytes, clusterName: string, clusterAttrs: uint64,
                    clusterID: Bytes, size: uint32, epCount: uint32): Maker {
    Maker(kind, hello, selfID, clusterName, clusterAttrs, clusterID, size, epCount,
          Empty(size), {}, 0, 0, ToMember, false)
  }

  /** The inner loop before each Get clears the bits of filled slots. */
  function Refresh(table: Table, still: Mask): (r: Mask)
    ensures r <= still
  {
    set i | i in still && !(i < |table| && table[i].Some?)
  }

  function Prepare(m: Maker): Maker {
    if m.stage.ToGet? then m.(still := Refresh(m.table, m.still)) else m
  }

  function Request(m: Maker): Msg {
    match m.stage
    case ToMember => Blank(OP_MEMBER).(memberSpecs := m.hello)
    case ToCreate => Blank(OP_CREATE).(clusterName := m.clusterName, clusterAttrs := m.clusterAttrs,
                                       clusterMaxSize := m.maxSize, endPointCount := m.epCount)
    case ToJoin => Blank(OP_JOIN).(clusterID := Some(m.clusterID))
    case ToGet => Blank(OP_GET_CLUSTER).(clusterID := Some(m.clusterID), which := m.still)
    case ToBye => Blank(OP_BYE)
    case Finished(_) => Blank(OP_BYE)
  }

  // ---------------------------------------------------------------- the self search

  /** The least filled slot with this ID, from i on. */
  function SelfSlot(table: Table, id: Bytes, i: nat): (r: Option<nat>)
    requires i <= |table|
    ensures r.Some? ==>
              && i <= r.value < |table| && table[r.value].Some? && table[r.value].value.id == id
              && forall j | i <= j < r.value :: table[j].None? || table[j].value.id != id
    ensures r.None? ==> forall j | i <= j < |table| :: table[j].None? || table[j].value.id != id
    decreases |table| - i
  {
    if i == |table| then None
    else if table[i].Some? && table[i].value.id == id then Some(i)
    else SelfSlot(table, id, i + 1)
  }

  /** The end of GetAndMembers: find oneself, unless the last conversion failed. */
  function Leave(m: Maker, err: bool): Maker {
    if err then m.(stage := if m.kind.Boot? then ToBye else Finished(false))
    else
      var self := SelfSlot(m.table, m.selfID, 0);
      m.(selfIndex := if self.Some? then self.value else m.selfIndex, stage := ToBye)
  }

  // ---------------------------------------------------------------- taking in a reply

  /** JoinAndReply. An Error reply reads as zeros. */
  function Resize(m: Maker, reply: Msg): Maker {
    m.(maxSize := reply.clusterMaxSize, epCount := reply.endPointCount,
       table := if m.maxSize != reply.clusterMaxSize then Empty(reply.clusterMaxSize) else m.table)
  }

  /** The test between two rounds of GetAndMembers, and what follows the last one. */
  function Settle(m: Maker, err: bool): Maker {
    if m.still == {} || m.gets >= MAX_GET then Leave(m, err) else m
  }

  function StartGets(m: Maker): Maker {
    Settle(m.(still := LowNMap(m.maxSize), gets := 0, stage := ToGet), false)
  }

  function AbsorbJoin(m: Maker, reply: Msg): Maker {
    StartGets(Resize(m, reply))
  }

  function Round(env: Env, m: Maker, reply: Msg): Maker {
    m.(table := Unpack(env, reply.which, reply.tokens, m.table),
       still := Remaining(env, reply.which, reply.tokens, |m.table|, m.still),
       gets := m.gets + 1)
  }

  /** One round of GetAndMembers. A token list shorter than its mask ends the client, in the
      middle of the slot loop. */
  function AbsorbMembers(env: Env, m: Maker, reply: Msg): Maker {
    if Short(reply.which, reply.tokens, |m.table|) then Round(env, m, reply).(stage := Finished(false))
    else Settle(Round(env, m, reply), LastFailed(env, reply.which, reply.tokens, |m.table|))
  }

  function Absorb(env: Env, m: Maker, reply: Msg, draw: Bytes): Maker {
    var n := m.(waiting := false);
    match m.stage
    case ToMember => n.(stage := if m.kind.Solo? then ToBye else if m.kind.Admin? then ToCreate else ToJoin)
    case ToCreate =>
      // a nil cluster ID makes the NodeID constructor draw a random one
      if reply.clusterID.Some? && !ValidID(reply.clusterID.value) then n.(stage := Finished(false))
      else n.(clusterID := if reply.clusterID.Some? then reply.clusterID.value else draw,
              clusterAttrs := reply.clusterAttrs, maxSize := reply.clusterMaxSize, stage := ToBye)
    case ToJoin => AbsorbJoin(n, reply)
    case ToGet => AbsorbMembers(env, n, reply)
    case ToBye => n.(stage := Finished(true))
    case Finished(_) => n
  }
}
