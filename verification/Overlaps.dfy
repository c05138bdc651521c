/** What can always happen: from every state the server can be in, a run leads to an ID
    inserted twice, to a name or an ID listed twice, to a cluster beyond its size, and to a
    crash. */
module Overlaps {
  import opened Types
  import opened Stores
  import opened Dispatch
  import opened Handlers
  import opened Whole
  import opened Connections
  import opened Runs
  import opened Theorems
  import opened Races
  import opened Alone

  lemma ExecConcat(env: Env, w: World, a: seq<Step>, b: seq<Step>)
    ensures Exec(env, w, a + b) == Exec(env, Exec(env, w, a), b)
  {
    ExecSplits(env, w, a + b, |a|);
    assert (a + b)[..|a|] == a && (a + b)[|a|..] == b;
  }

  lemma ExecOne(env: Env, w: World, a: Step)
    ensures Exec(env, w, [a]) == Next(env, w, a)
  {
    FirstThen(env, w, a, []);
    assert [a] + [] == [a];
  }

  /** A message a session hears, served without interruption, as steps of a run. */
  lemma HearAlone(env: Env, w: World, k: nat, msg: Msg, draws: seq<Bytes>) returns (steps: seq<Step>)
    requires k < |w.conns| && Enabled(w, Hear(k, msg)) && Waiting(w.store, w.conns[k].sess) && DrawsOk(draws)
    requires !WholeMessage(env, w.store, w.conns[k].sess, msg, draws).1.pc.Panicked?
    ensures var v := Exec(env, w, steps);
            var (st, s) := WholeMessage(env, w.store, w.conns[k].sess, msg, draws);
            !v.crashed && v.store == st && v.conns == w.conns[k := w.conns[k].(sess := s)]
  {
    var s := w.conns[k].sess;
    MessageAlone(env, w.store, s, msg, draws);
    var t := Receive(env, w.store, s, msg);
    var v := Next(env, w, Hear(k, msg));
    HearSets(env, w, k, msg);
    var more := WorkSteps(env, v.store, t, k, draws);
    steps := [Hear(k, msg)] + more;
    FirstThen(env, w, Hear(k, msg), more);
    FinishIsRun(env, v, k, draws);
    var s' := Finish(env, w.store, t, draws).1;
    assert v.conns[k := v.conns[k].(sess := s')] == w.conns[k := w.conns[k].(sess := s')];
  }

  lemma HearSets(env: Env, w: World, k: nat, msg: Msg)
    requires Enabled(w, Hear(k, msg))
    ensures var v, t := Next(env, w, Hear(k, msg)), Receive(env, w.store, w.conns[k].sess, msg);
            && v.store == w.store && v.conns == w.conns[k := w.conns[k].(sess := t)]
            && v.inserted == w.inserted && (v.crashed <==> t.pc.Panicked?)
  {
  }

  /** An Applicant whose token verifies and whose node can be made. */
  ghost predicate Welcome(env: Env, t: Token, id: Bytes, who: Applicant) {
    && Verified(env, t) == Some(who) && t.id == Some(id) && ValidID(id)
    && env.baseOk(who.name, id, who.ck, who.sk)
  }

  ghost predicate Newcomer(w: World, k: nat) {
    k < |w.conns| && w.conns[k] == Conn(NewSess(), Foreign)
  }

  function Hello(t: Token): Msg {
    Blank(OP_MEMBER).(memberSpecs := t)
  }

  lemma ReachableIndexed(env: Env, w: World)
    requires Reachable(env, w)
    ensures Indexed(w.store)
  {
    ReachableOk(env, w);
  }

  /** Two clients connect. */
  lemma TwoConnect(env: Env, w: World) returns (v: World)
    requires !w.crashed
    ensures v == Exec(env, w, [Connect(Foreign), Connect(Foreign)])
    ensures v == w.(conns := w.conns + [Conn(NewSess(), Foreign)] + [Conn(NewSess(), Foreign)])
    ensures Newcomer(v, |w.conns|) && Newcomer(v, |w.conns| + 1)
  {
    var a := Connect(Foreign);
    var u := Next(env, w, a);
    v := Next(env, u, a);
    FirstThen(env, w, a, [a]);
    assert [a] + [a] == [a, a];
    ExecOne(env, u, a);
  }

  // ---------------------------------------------------------------- one ID, inserted twice

  lemma HearsHello(env: Env, st: Store, t: Token, id: Bytes, who: Applicant)
    requires Indexed(st) && Welcome(env, t, id, who)
    ensures Receive(env, st, NewSess(), Hello(t)).pc == Vouch(id, who)
  {
    assert Op2Tag(OP_MEMBER) == MEMBER && TABLE[HELLO_RCVD][MEMBER] == DoClient;
  }

  /** From any state, for any acceptable ID that the filter does not know: two clients that
      bring it can be served so that it is inserted twice. */
  lemma IDRaceReachable(env: Env, w: World, t: Token, id: Bytes, who: Applicant) returns (steps: seq<Step>)
    requires Reachable(env, w) && !w.crashed && Welcome(env, t, id, who) && !Has(env, w.store, id)
    ensures !DistinctIDs(Exec(env, w, steps).inserted)
  {
    ReachableIndexed(env, w);
    var j, k := |w.conns|, |w.conns| + 1;
    var w2 := TwoConnect(env, w);
    HearsHello(env, w.store, t, id, who);
    HearSets(env, w2, j, Hello(t));
    var w3 := Next(env, w2, Hear(j, Hello(t)));
    HearSets(env, w3, k, Hello(t));
    var w4 := Next(env, w3, Hear(k, Hello(t)));
    WorkOnce(env, w4, j, id);
    var w5 := Next(env, w4, Work(j, id));
    WorkOnce(env, w5, k, id);
    var w6 := Next(env, w5, Work(k, id));
    OverlapRepeatsID(env, w6, j, k, id);
    var hears, works := [Hear(j, Hello(t)), Hear(k, Hello(t))], [Work(j, id), Work(k, id)];
    TwoSteps(env, w2, hears[0], hears[1]);
    TwoSteps(env, w4, works[0], works[1]);
    TwoSteps(env, w6, works[0], works[1]);
    TwoSteps(env, Exec(env, w6, works), works[0], works[1]);
    steps := [Connect(Foreign), Connect(Foreign)] + (hears + (works + (works + works)));
    ExecConcat(env, w, [Connect(Foreign), Connect(Foreign)], hears + (works + (works + works)));
    ExecConcat(env, w2, hears, works + (works + works));
    ExecConcat(env, w4, works, works + works);
    ExecConcat(env, w6, works, works);
  }

  lemma TwoSteps(env: Env, w: World, a: Step, b: Step)
    ensures Exec(env, w, [a, b]) == Next(env, Next(env, w, a), b)
  {
    FirstThen(env, w, a, [b]);
    assert [a] + [b] == [a, b];
    ExecOne(env, Next(env, w, a), b);
  }

  // ---------------------------------------------------------------- one name, listed twice

  function Info(who: Applicant, id: Bytes): ClientInfo {
    ClientInfo(who.attrs, Slice(who.ends), BaseNode(who.name, id, who.ck, who.sk))
  }

  /** The session of a client that has been admitted and has joined nothing. */
  ghost predicate Settled(c: Conn, who: Applicant, id: Bytes) {
    && c.peer.Foreign? && c.sess.pc.Ready? && c.sess.entry == CLIENT_DETAILS_RCVD && c.sess.cluster.None?
    && c.sess.client == Some(Info(who, id))
  }

  /** The stores may differ in the filter only. */
  ghost predicate SameClusters(a: Store, b: Store) {
    a.clusters == b.clusters && a.byName == b.byName && a.byID == b.byID
  }

  lemma HelloAlone(env: Env, st: Store, t: Token, id: Bytes, who: Applicant)
    requires Indexed(st) && Welcome(env, t, id, who)
    ensures Waiting(st, NewSess())
    ensures var (st', s) := WholeMessage(env, st, NewSess(), Hello(t), []);
            Settled(Conn(s, Foreign), who, id) && SameClusters(st, st')
  {
    assert Op2Tag(OP_MEMBER) == MEMBER && TABLE[HELLO_RCVD][MEMBER] == DoClient;
  }

  /** A newcomer is admitted without disturbing anyone. */
  lemma Arrives(env: Env, w: World, k: nat, t: Token, id: Bytes, who: Applicant) returns (steps: seq<Step>, v: World)
    requires !w.crashed && Indexed(w.store) && Newcomer(w, k) && Welcome(env, t, id, who)
    ensures v == Exec(env, w, steps) && !v.crashed && SameClusters(w.store, v.store)
    ensures |v.conns| == |w.conns| && Settled(v.conns[k], who, id)
    ensures forall i | 0 <= i < |w.conns| && i != k :: v.conns[i] == w.conns[i]
  {
    HelloAlone(env, w.store, t, id, who);
    steps := HearAlone(env, w, k, Hello(t), []);
    v := Exec(env, w, steps);
  }

  function JoinMsg(id: Bytes): Msg {
    Blank(OP_JOIN).(clusterID := Some(id))
  }

  lemma HearsJoin(env: Env, st: Store, c: Conn, i: nat, who: Applicant, id: Bytes)
    requires Indexed(st) && i < |st.clusters| && Settled(c, who, id)
    ensures var s := Receive(env, st, c.sess, JoinMsg(st.clusters[i].id));
            s.pc == NameCheck(i) && s.client == c.sess.client
  {
    assert Op2Tag(OP_JOIN) == JOIN && TABLE[CLIENT_DETAILS_RCVD][JOIN] == DoJoin;
  }

  /** Both ask to join, and neither has been looked at yet. */
  lemma BothAsk(env: Env, w: World, j: nat, k: nat, i: nat, who: Applicant, id: Bytes) returns (v: World)
    requires !w.crashed && Indexed(w.store) && i < |w.store.clusters|
    requires j < |w.conns| && k < |w.conns| && j != k && Settled(w.conns[j], who, id) && Settled(w.conns[k], who, id)
    ensures var msg := JoinMsg(w.store.clusters[i].id); v == Next(env, Next(env, w, Hear(j, msg)), Hear(k, msg))
    ensures v.store == w.store && Joining(v, j, k, i)
    ensures v.conns[j].sess.pc == NameCheck(i) && v.conns[k].sess.pc == NameCheck(i)
    ensures v.conns[j].sess.client == w.conns[j].sess.client
  {
    var msg := JoinMsg(w.store.clusters[i].id);
    HearsJoin(env, w.store, w.conns[j], i, who, id);
    HearSets(env, w, j, msg);
    var u := Next(env, w, Hear(j, msg));
    HearsJoin(env, w.store, w.conns[k], i, who, id);
    HearSets(env, u, k, msg);
    v := Next(env, u, Hear(k, msg));
  }

  /** From any state, for any listed cluster that still takes members and any acceptable
      client whose name is free in it: two such clients can be served so that the cluster
      lists the name twice. */
  lemma NameRaceReachable(env: Env, w: World, i: nat, t: Token, id: Bytes, who: Applicant) returns (steps: seq<Step>)
    requires Reachable(env, w) && !w.crashed && Welcome(env, t, id, who) && i < |w.store.clusters|
    requires who.name !in w.store.clusters[i].byName && IDFree(w.store.clusters[i])
    ensures var v := Exec(env, w, steps);
            i < |v.store.clusters| && !NamesDistinct(v.store.clusters[i].members)
  {
    ReachableIndexed(env, w);
    var j, k := |w.conns|, |w.conns| + 1;
    var w2 := TwoConnect(env, w);
    var first, w3 := Arrives(env, w2, j, t, id, who);
    var second, w4 := Arrives(env, w3, k, t, id, who);
    var last := JoinRace(env, w4, j, k, i, who, id);
    var connect := [Connect(Foreign), Connect(Foreign)];
    steps := connect + (first + (second + last));
    ExecConcat(env, w, connect, first + (second + last));
    ExecConcat(env, w2, first, second + last);
    ExecConcat(env, w3, second, last);
  }

  lemma JoinRace(env: Env, w: World, j: nat, k: nat, i: nat, who: Applicant, id: Bytes) returns (steps: seq<Step>)
    requires !w.crashed && Indexed(w.store) && i < |w.store.clusters| && ValidID(id)
    requires j < |w.conns| && k < |w.conns| && j != k && Settled(w.conns[j], who, id) && Settled(w.conns[k], who, id)
    requires who.name !in w.store.clusters[i].byName && IDFree(w.store.clusters[i])
    ensures var v := Exec(env, w, steps);
            i < |v.store.clusters| && !NamesDistinct(v.store.clusters[i].members)
  {
    var msg := JoinMsg(w.store.clusters[i].id);
    var v := BothAsk(env, w, j, k, i, who, id);
    OverlapRepeatsName(env, v, j, k, i, id);
    TwoSteps(env, w, Hear(j, msg), Hear(k, msg));
    var ask := [Hear(j, msg), Hear(k, msg)];
    var pairs := ThreeTimes(env, v, j, k, id);
    steps := ask + pairs;
    ExecConcat(env, w, ask, pairs);
  }

  lemma ThreeTimes(env: Env, w: World, j: nat, k: nat, draw: Bytes) returns (steps: seq<Step>)
    ensures Exec(env, w, steps) == Both(env, Both(env, Both(env, w, j, k, draw), j, k, draw), j, k, draw)
  {
    var pair := [Work(j, draw), Work(k, draw)];
    steps := pair + (pair + pair);
    var w1 := Both(env, w, j, k, draw);
    TwoSteps(env, w, pair[0], pair[1]);
    TwoSteps(env, w1, pair[0], pair[1]);
    TwoSteps(env, Both(env, w1, j, k, draw), pair[0], pair[1]);
    ExecConcat(env, w, pair, pair + pair);
    ExecConcat(env, w1, pair, pair);
  }

  // ---------------------------------------------------------------- joining alone

  /** An admitted client joins a cluster, without interruption. */
  lemma Enters(env: Env, w: World, k: nat, i: nat, id: Bytes, who: Applicant) returns (steps: seq<Step>, v: World)
    requires !w.crashed && Indexed(w.store) && i < |w.store.clusters| && k < |w.conns| && Settled(w.conns[k], who, id)
    requires who.name !in w.store.clusters[i].byName && IDFree(w.store.clusters[i])
    ensures v == Exec(env, w, steps) && !v.crashed && |v.conns| == |w.conns|
    ensures v.store == WithMember(w.store, i, Info(who, id))
    ensures forall j | 0 <= j < |w.conns| && j != k :: v.conns[j] == w.conns[j]
  {
    JoinsWhole(env, w.store, w.conns[k], i, who, id);
    steps := HearAlone(env, w, k, JoinMsg(w.store.clusters[i].id), []);
    v := Exec(env, w, steps);
  }

  /** A newcomer is admitted and joins a cluster, without interruption. */
  lemma ComesIn(env: Env, w: World, k: nat, i: nat, t: Token, id: Bytes, who: Applicant) returns (steps: seq<Step>, v: World)
    requires !w.crashed && Indexed(w.store) && Newcomer(w, k) && Welcome(env, t, id, who) && i < |w.store.clusters|
    requires who.name !in w.store.clusters[i].byName && IDFree(w.store.clusters[i])
    ensures v == Exec(env, w, steps) && !v.crashed && Indexed(v.store) && |v.conns| == |w.conns|
    ensures i < |v.store.clusters| && v.store.clusters[i] == Append(w.store.clusters[i], Info(who, id))
    ensures forall j | 0 <= j < |w.conns| && j != k :: v.conns[j] == w.conns[j]
  {
    var first, u := Arrives(env, w, k, t, id, who);
    var last, u' := Enters(env, u, k, i, id, who);
    WithMemberIndexed(u.store, i, Info(who, id));
    steps, v := first + last, u';
    ExecConcat(env, w, first, last);
  }

  lemma JoinsWhole(env: Env, st: Store, c: Conn, i: nat, who: Applicant, id: Bytes)
    requires Indexed(st) && i < |st.clusters| && Settled(c, who, id)
    requires who.name !in st.clusters[i].byName && IDFree(st.clusters[i])
    ensures Waiting(st, c.sess)
    ensures var (st', s) := WholeMessage(env, st, c.sess, JoinMsg(st.clusters[i].id), []);
            s.pc.Ready? && st' == WithMember(st, i, c.sess.client.value)
  {
    assert Op2Tag(OP_JOIN) == JOIN && TABLE[CLIENT_DETAILS_RCVD][JOIN] == DoJoin;
  }

  // ---------------------------------------------------------------- a full cluster

  /** From any state, any listed cluster that has reached its size and still takes members
      can be given one more. */
  lemma OverfullReachable(env: Env, w: World, i: nat, t: Token, id: Bytes, who: Applicant) returns (steps: seq<Step>)
    requires Reachable(env, w) && !w.crashed && Welcome(env, t, id, who) && i < |w.store.clusters|
    requires who.name !in w.store.clusters[i].byName && IDFree(w.store.clusters[i])
    requires |w.store.clusters[i].members| >= w.store.clusters[i].maxSize
    ensures var v := Exec(env, w, steps);
            i < |v.store.clusters| && |v.store.clusters[i].members| > v.store.clusters[i].maxSize
  {
    ReachableIndexed(env, w);
    var w2 := TwoConnect(env, w);
    var more, v := ComesIn(env, w2, |w.conns|, i, t, id, who);
    var connect := [Connect(Foreign), Connect(Foreign)];
    steps := connect + more;
    ExecConcat(env, w, connect, more);
  }

  // ---------------------------------------------------------------- one ID, two members

  /** From any state, for any listed cluster that takes members and any two acceptable clients
      with one ID, not the cluster's, and two names free in it: both join, one after the other,
      and the cluster lists the ID twice. */
  lemma SharedIDReachable(env: Env, w: World, i: nat, t: Token, t': Token, id: Bytes, who: Applicant, who': Applicant)
      returns (steps: seq<Step>)
    requires Reachable(env, w) && !w.crashed && i < |w.store.clusters|
    requires Welcome(env, t, id, who) && Welcome(env, t', id, who') && who.name != who'.name
    requires who.name !in w.store.clusters[i].byName && who'.name !in w.store.clusters[i].byName
    requires IDFree(w.store.clusters[i]) && id != w.store.clusters[i].id
    ensures var v := Exec(env, w, steps);
            i < |v.store.clusters| && !IDsDistinct(v.store.clusters[i].members)
  {
    ReachableIndexed(env, w);
    var w2 := TwoConnect(env, w);
    var first, w3 := ComesIn(env, w2, |w.conns|, i, t, id, who);
    var second, w4 := ComesIn(env, w3, |w.conns| + 1, i, t', id, who');
    var connect := [Connect(Foreign), Connect(Foreign)];
    steps := connect + (first + second);
    ExecConcat(env, w, connect, first + second);
    ExecConcat(env, w2, first, second);
    SharedTwice(w.store.clusters[i].members, Info(who, id), Info(who', id));
  }

  lemma SharedTwice(ms: seq<ClientInfo>, a: ClientInfo, b: ClientInfo)
    requires a.base.id == b.base.id
    ensures !IDsDistinct(ms + [a] + [b])
  {
    var all, n := ms + [a] + [b], |ms|;
    assert all[n] == a && all[n + 1] == b;
  }

  // ---------------------------------------------------------------- crashes

  /** From any state, a Join of any ID that no listed cluster has brings the server down. */
  lemma CrashByJoinReachable(env: Env, w: World, unlisted: Bytes, t: Token, id: Bytes, who: Applicant) returns (steps: seq<Step>)
    requires Reachable(env, w) && !w.crashed && Welcome(env, t, id, who) && !HasID(w.store, unlisted)
    ensures Exec(env, w, steps).crashed
  {
    ReachableIndexed(env, w);
    var k := |w.conns|;
    var w2 := TwoConnect(env, w);
    var first, w3 := Arrives(env, w2, k, t, id, who);
    var a := Hear(k, JoinMsg(unlisted));
    ReceivePanics(env, w3.store, w3.conns[k].sess, JoinMsg(unlisted));
    HearSets(env, w3, k, JoinMsg(unlisted));
    ExecOne(env, w3, a);
    var connect := [Connect(Foreign), Connect(Foreign)];
    steps := connect + (first + [a]);
    ExecConcat(env, w, connect, first + [a]);
    ExecConcat(env, w2, first, [a]);
  }

  /** From any state, any message whose op is outside 2..12 brings the server down. */
  lemma CrashByOpReachable(env: Env, w: World, msg: Msg) returns (steps: seq<Step>)
    requires Reachable(env, w) && !w.crashed && !(2 <= msg.op <= 12)
    ensures Exec(env, w, steps).crashed
  {
    ReachableIndexed(env, w);
    var w2 := TwoConnect(env, w);
    var a := Hear(|w.conns|, msg);
    ReceivePanics(env, w2.store, NewSess(), msg);
    HearSets(env, w2, |w.conns|, msg);
    ExecOne(env, w2, a);
    steps := [Connect(Foreign), Connect(Foreign)] + [a];
    ExecConcat(env, w, [Connect(Foreign), Connect(Foreign)], [a]);
  }
}
