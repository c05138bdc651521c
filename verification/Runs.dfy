/** Runs of the whole system: any number of connections, interleaved at lock granularity. */
module Runs {
  import opened Types
  import opened Stores
  import opened Dispatch
  import opened Handlers
  import opened Sessions
  import opened Clients
  import opened Connections

  datatype Use = Own | OfClient | OfCluster

  /** One insertion into the ID filter, in the order made. */
  datatype Insertion = Insertion(id: Bytes, use: Use)

  /** One answered message. */
  datatype Exchange = Exchange(tag: int, req: Msg, reply: Msg)

  /** The server and its connections. `inserted`, `log` and `refused` are history: the
      filter's insertions, the answered messages, and the clusters AddCluster turned away. */
  datatype World = World(
    store: Store, conns: seq<Conn>, crashed: bool,
    inserted: seq<Insertion>, log: seq<Exchange>, refused: nat)

  datatype Step =
    | Connect(peer: Peer)                // a client connects
    | Hear(k: nat, msg: Msg)             // any other client sends anything at all
    | Work(k: nat, draw: Bytes)          // the handler under way enters its next critical section
    | Post(k: nat)                       // a MemberMaker sends its next request
    | Collect(k: nat, draw: Bytes)       // a MemberMaker takes in its reply

  /** NewRegistry with an empty filter: the registry's own ID goes in first. */
  function Start(env: Env, regID: Bytes): World {
    World(Store(env.keys(regID), 1, [], map[], map[]), [], false, [Insertion(regID, Own)], [], 0)
  }

  predicate FreshPeer(p: Peer) {
    p.Member? ==>
      && p.m == NewMaker(p.m.kind, p.m.hello, p.m.selfID, p.m.clusterName, p.m.clusterAttrs,
                         p.m.clusterID, p.m.maxSize, p.m.epCount)
      && p.m.hello.id == Some(p.m.selfID)
  }

  ghost predicate Enabled(w: World, a: Step) {
    && !w.crashed
    && match a
       case Connect(p) => FreshPeer(p)
       case Hear(k, _) => Indexed(w.store) && k < |w.conns| && w.conns[k].peer.Foreign?
                          && w.conns[k].sess.pc.Ready? && w.conns[k].sess.entry != IN_CLOSED
       case Work(k, draw) => k < |w.conns| && !w.conns[k].sess.pc.Ready? && ValidID(draw) && Refs(w.store, w.conns[k].sess)
       case Post(k) => Indexed(w.store) && k < |w.conns| && CanSend(w.conns[k])
       case Collect(k, _) => k < |w.conns| && CanTake(w.conns[k])
  }

  /** What a critical section of this session puts into the filter. */
  function Inserts(s: Sess): seq<Insertion> {
    match s.pc
    case Issuing(id, ForClient(_)) => [Insertion(id, OfClient)]
    case Issuing(id, ForCluster) => [Insertion(id, OfCluster)]
    case Vouching(id, _) => [Insertion(id, OfClient)]
    case _ => []
  }

  function Answers(s: Sess, s': Sess): seq<Exchange> {
    if s'.said > s.said && s'.reply.Some? then [Exchange(s'.tag, s'.msgIn, s'.reply.value)] else []
  }

  function Put(w: World, st: Store, k: nat, c: Conn): World
    requires k < |w.conns|
  {
    w.(store := st, conns := w.conns[k := c], crashed := w.crashed || c.sess.pc.Panicked?,
       log := w.log + Answers(w.conns[k].sess, c.sess))
  }

  ghost function Next(env: Env, w: World, a: Step): World {
    if !Enabled(w, a) then w else
    match a
    case Connect(p) => w.(conns := w.conns + [Conn(NewSess(), p)])
    case Hear(k, msg) => Put(w, w.store, k, w.conns[k].(sess := Receive(env, w.store, w.conns[k].sess, msg)))
    case Work(k, draw) =>
      var s := w.conns[k].sess;
      var (st, s') := Advance(env, w.store, s, draw);
      Put(w, st, k, w.conns[k].(sess := s')).(
        inserted := w.inserted + Inserts(s),
        refused := w.refused + if s.pc.Adding? && s'.entry == IN_CLOSED then 1 else 0)
    case Post(k) => Put(w, w.store, k, Send(env, w.store, w.conns[k]))
    case Collect(k, draw) => Put(w, w.store, k, Take(env, w.conns[k], draw))
  }

  ghost function Exec(env: Env, w: World, steps: seq<Step>): World {
    if steps == [] then w else Next(env, Exec(env, w, steps[..|steps| - 1]), steps[|steps| - 1])
  }

  ghost predicate Reachable(env: Env, w: World) {
    exists regID, steps :: Reaching(env, regID, steps, w)
  }

  ghost predicate Reaching(env: Env, regID: Bytes, steps: seq<Step>, w: World) {
    ValidID(regID) && w == Exec(env, Start(env, regID), steps)
  }

  // ---------------------------------------------------------------- the invariant

  ghost predicate LogOk(env: Env, st: Store, log: seq<Exchange>) {
    forall i | 0 <= i < |log| :: Truthful(env, st, log[i].tag, log[i].req, log[i].reply)
  }

  /** The filter never forgets: it answers yes for whatever was inserted. */
  ghost predicate FilterOk(env: Env, w: World) {
    && w.store.count == |w.inserted|
    && forall i | 0 <= i < |w.inserted| :: env.keys(w.inserted[i].id) <= w.store.bits
  }

  ghost predicate ConnsOk(env: Env, st: Store, conns: seq<Conn>) {
    forall k | 0 <= k < |conns| :: ConnOk(env, st, conns[k])
  }

  ghost predicate Inv(env: Env, w: World) {
    && StoreOk(env, w.store)
    && ConnsOk(env, w.store, w.conns)
    && LogOk(env, w.store, w.log)
    && FilterOk(env, w)
  }

  lemma StartOk(env: Env, regID: Bytes)
    ensures Inv(env, Start(env, regID))
  {
  }

  lemma LogStays(env: Env, a: Store, b: Store, log: seq<Exchange>)
    requires Grows(a, b) && LogOk(env, a, log)
    ensures LogOk(env, b, log)
  {
    forall i | 0 <= i < |log| ensures Truthful(env, b, log[i].tag, log[i].req, log[i].reply) {
      TruthfulStays(env, a, b, log[i].tag, log[i].req, log[i].reply);
    }
  }

  /** One connection moves, the stores grow, and nobody else notices. */
  lemma PutKeeps(env: Env, w: World, st: Store, k: nat, c: Conn)
    requires k < |w.conns| && ConnsOk(env, w.store, w.conns) && LogOk(env, w.store, w.log)
    requires Grows(w.store, st) && ConnOk(env, st, c)
    ensures var w' := Put(w, st, k, c);
            ConnsOk(env, st, w'.conns) && LogOk(env, st, w'.log)
  {
    forall j | 0 <= j < |w.conns| && j != k ensures ConnOk(env, st, w.conns[j]) {
      ConnStays(env, w.store, st, w.conns[j]);
    }
    LogStays(env, w.store, st, w.log);
  }

  lemma NextKeeps(env: Env, w: World, a: Step)
    requires Inv(env, w)
    ensures Inv(env, Next(env, w, a)) && Grows(w.store, Next(env, w, a).store)
  {
    if Enabled(w, a) {
      match a
      case Connect(p) => ConnectKeeps(env, w, p);
      case Hear(k, msg) => HearKeeps(env, w, k, msg);
      case Work(k, draw) => WorkStepKeeps(env, w, k, draw);
      case Post(k) => PostKeeps(env, w, k);
      case Collect(k, draw) => CollectKeeps(env, w, k, draw);
    }
  }

  /** A step that moves one connection and no store. */
  lemma QuietKeeps(env: Env, w: World, k: nat, c: Conn)
    requires Inv(env, w) && k < |w.conns| && ConnOk(env, w.store, c)
    ensures Inv(env, Put(w, w.store, k, c))
  {
    PutKeeps(env, w, w.store, k, c);
  }

  lemma HearKeeps(env: Env, w: World, k: nat, msg: Msg)
    requires Inv(env, w) && Enabled(w, Hear(k, msg))
    ensures Inv(env, Next(env, w, Hear(k, msg)))
  {
    ReceiveKeeps(env, w.store, w.conns[k].sess, msg);
    QuietKeeps(env, w, k, w.conns[k].(sess := Receive(env, w.store, w.conns[k].sess, msg)));
  }

  lemma PostKeeps(env: Env, w: World, k: nat)
    requires Inv(env, w) && Enabled(w, Post(k))
    ensures Inv(env, Next(env, w, Post(k)))
  {
    SendKeeps(env, w.store, w.conns[k]);
    QuietKeeps(env, w, k, Send(env, w.store, w.conns[k]));
  }

  lemma CollectKeeps(env: Env, w: World, k: nat, draw: Bytes)
    requires Inv(env, w) && Enabled(w, Collect(k, draw))
    ensures Inv(env, Next(env, w, Collect(k, draw)))
  {
    TakeKeeps(env, w.store, w.conns[k], draw);
    QuietKeeps(env, w, k, Take(env, w.conns[k], draw));
  }

  lemma ConnectKeeps(env: Env, w: World, p: Peer)
    requires Inv(env, w) && Enabled(w, Connect(p))
    ensures Inv(env, Next(env, w, Connect(p)))
  {
    FreshSession(env, w.store);
    assert ConnOk(env, w.store, Conn(NewSess(), p));
  }

  lemma WorkStepKeeps(env: Env, w: World, k: nat, draw: Bytes)
    requires Inv(env, w) && Enabled(w, Work(k, draw))
    ensures Inv(env, Next(env, w, Work(k, draw))) && Grows(w.store, Next(env, w, Work(k, draw)).store)
  {
    var s := w.conns[k].sess;
    var (st, s') := Advance(env, w.store, s, draw);
    WorkKeeps(env, w.store, w.conns[k], draw);
    PutKeeps(env, w, st, k, w.conns[k].(sess := s'));
    AdvanceFilter(env, w.store, s, draw);
  }

  /** The filter changes exactly by what is recorded as inserted. */
  lemma AdvanceFilter(env: Env, st: Store, s: Sess, draw: Bytes)
    requires Refs(st, s)
    ensures var st' := Advance(env, st, s, draw).0;
            && st'.count == st.count + |Inserts(s)| && |Inserts(s)| <= 1
            && st'.bits == if Inserts(s) == [] then st.bits else st.bits + env.keys(Inserts(s)[0].id)
  {
  }

  /** One critical section changes the stores, its own session and the history, no more. */
  lemma WorkOnce(env: Env, w: World, k: nat, draw: Bytes)
    requires !w.crashed && k < |w.conns| && !w.conns[k].sess.pc.Ready? && ValidID(draw) && Refs(w.store, w.conns[k].sess)
    ensures var (st, s') := Advance(env, w.store, w.conns[k].sess, draw);
            var w' := Next(env, w, Work(k, draw));
            && w'.store == st && w'.conns == w.conns[k := w.conns[k].(sess := s')]
            && w'.inserted == w.inserted + Inserts(w.conns[k].sess)
            && w'.crashed == s'.pc.Panicked?
  {
  }

  lemma {:induction false} ExecKeeps(env: Env, w: World, steps: seq<Step>)
    requires Inv(env, w)
    ensures Inv(env, Exec(env, w, steps)) && Grows(w.store, Exec(env, w, steps).store)
  {
    if steps != [] {
      ExecKeeps(env, w, steps[..|steps| - 1]);
      var v := Exec(env, w, steps[..|steps| - 1]);
      NextKeeps(env, v, steps[|steps| - 1]);
      GrowsTransitive(w.store, v.store, Exec(env, w, steps).store);
    }
  }

  lemma ReachableOk(env: Env, w: World)
    requires Reachable(env, w)
    ensures Inv(env, w)
  {
    var regID, steps :| Reaching(env, regID, steps, w);
    StartOk(env, regID);
    ExecKeeps(env, Start(env, regID), steps);
  }
}
