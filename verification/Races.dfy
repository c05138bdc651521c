/** What overlapping calls may break and non-overlapping ones keep: fresh IDs in the filter
    and distinct member names. Also, in every run, where each inserted ID went. */
module Races {
  import opened Types
  import opened Stores
  import opened Dispatch
  import opened Handlers
  import opened Clients
  import opened Connections
  import opened Runs

  /** A handler between a check and the write the check was for. */
  predicate Holding(pc: Pc) {
    pc.Issuing? || pc.Vouching? || pc.Adding? || pc.IDCheck? || pc.Appending?
  }

  /** Steps other than Work write to no store and put no session between check and write. */
  lemma QuietStep(env: Env, w: World, a: Step)
    requires Enabled(w, a) && !a.Connect? && !a.Work?
    ensures var w' := Next(env, w, a);
            && a.k < |w.conns|
            && w'.store == w.store && w'.inserted == w.inserted && w'.refused == w.refused
            && |w'.conns| == |w.conns| && w'.conns == w.conns[a.k := w'.conns[a.k]]
            && (w'.conns[a.k].sess == w.conns[a.k].sess ||
                (!Holding(w.conns[a.k].sess.pc) && !Holding(w'.conns[a.k].sess.pc)))
  {
    match a
    case Hear(k, msg) => ReceiveHoldsNothing(env, w.store, w.conns[k].sess, msg);
    case Post(k) => ReceiveHoldsNothing(env, w.store, w.conns[k].sess, Request(Prepare(w.conns[k].peer.m)));
    case Collect(_, _) =>
  }

  lemma ReceiveHoldsNothing(env: Env, st: Store, s: Sess, msg: Msg)
    requires Indexed(st) && s.pc.Ready?
    ensures !Holding(Receive(env, st, s, msg).pc)
  {
  }

  // ---------------------------------------------------------------- conservation, in every run

  function Tally(inserted: seq<Insertion>, use: Use): nat {
    if inserted == [] then 0
    else Tally(inserted[..|inserted| - 1], use) + if inserted[|inserted| - 1].use == use then 1 else 0
  }

  lemma TallySnoc(inserted: seq<Insertion>, x: Insertion, use: Use)
    ensures Tally(inserted + [x], use) == Tally(inserted, use) + if x.use == use then 1 else 0
  {
    assert (inserted + [x])[..|inserted|] == inserted;
  }

  function AddingNow(conns: seq<Conn>): nat {
    if conns == [] then 0
    else AddingNow(conns[..|conns| - 1]) + if conns[|conns| - 1].sess.pc.Adding? then 1 else 0
  }

  lemma {:induction false} AddingUpdate(conns: seq<Conn>, k: nat, c: Conn)
    requires k < |conns|
    ensures AddingNow(conns[k := c]) + (if conns[k].sess.pc.Adding? then 1 else 0) ==
            AddingNow(conns) + (if c.sess.pc.Adding? then 1 else 0)
  {
    var most := conns[..|conns| - 1];
    var conns' := conns[k := c];
    if k == |conns| - 1 {
      assert conns'[..|conns'| - 1] == most;
    } else {
      assert conns'[..|conns'| - 1] == most[k := c];
      AddingUpdate(most, k, c);
    }
  }

  /** Every inserted ID is accounted for: the registry's own, those of clients, and one per
      cluster listed, refused or about to be added. */
  ghost predicate Conserved(w: World) {
    && w.store.count == |w.inserted|
    && |w.inserted| == 1 + Tally(w.inserted, OfClient) + Tally(w.inserted, OfCluster)
    && Tally(w.inserted, OfCluster) == |w.store.clusters| + w.refused + AddingNow(w.conns)
  }

  lemma ConservedNext(env: Env, w: World, a: Step)
    requires Conserved(w)
    ensures Conserved(Next(env, w, a))
  {
    if Enabled(w, a) {
      if a.Connect? {
        ConservedConnect(env, w, a.peer);
      } else if a.Work? {
        ConservedWork(env, w, a.k, a.draw);
      } else {
        ConservedQuiet(env, w, a);
      }
    }
  }

  lemma ConservedConnect(env: Env, w: World, p: Peer)
    requires Conserved(w) && Enabled(w, Connect(p))
    ensures Conserved(Next(env, w, Connect(p)))
  {
    assert (w.conns + [Conn(NewSess(), p)])[..|w.conns|] == w.conns;
  }

  lemma ConservedQuiet(env: Env, w: World, a: Step)
    requires Conserved(w) && Enabled(w, a) && !a.Connect? && !a.Work?
    ensures Conserved(Next(env, w, a))
  {
    QuietStep(env, w, a);
    AddingUpdate(w.conns, a.k, Next(env, w, a).conns[a.k]);
  }

  lemma ConservedWork(env: Env, w: World, k: nat, draw: Bytes)
    requires Conserved(w) && Enabled(w, Work(k, draw))
    ensures Conserved(Next(env, w, Work(k, draw)))
  {
    var s := w.conns[k].sess;
    var w' := Next(env, w, Work(k, draw));
    AddingUpdate(w.conns, k, w'.conns[k]);
    TallyInserts(w.inserted, s);
    AdvanceAccounts(env, w.store, s, draw);
  }

  lemma TallyInserts(inserted: seq<Insertion>, s: Sess)
    ensures |Inserts(s)| <= 1
    ensures forall use :: Tally(inserted + Inserts(s), use) ==
              Tally(inserted, use) + if Inserts(s) != [] && Inserts(s)[0].use == use then 1 else 0
    ensures Inserts(s) != [] ==> Inserts(s)[0].use == OfClient || Inserts(s)[0].use == OfCluster
  {
    forall use ensures Tally(inserted + Inserts(s), use) ==
                         Tally(inserted, use) + if Inserts(s) != [] && Inserts(s)[0].use == use then 1 else 0
    {
      if Inserts(s) != [] {
        TallySnoc(inserted, Inserts(s)[0], use);
        assert Inserts(s) == [Inserts(s)[0]];
      } else {
        assert inserted + [] == inserted;
      }
    }
  }

  lemma AdvanceAccounts(env: Env, st: Store, s: Sess, draw: Bytes)
    requires Refs(st, s)
    ensures var (st', s') := Advance(env, st, s, draw);
            && st'.count == st.count + |Inserts(s)|
            && (s'.pc.Adding? <==> (Inserts(s) != [] && Inserts(s)[0].use == OfCluster))
            && |st'.clusters| == |st.clusters| + (if s.pc.Adding? && s'.entry != IN_CLOSED then 1 else 0)
  {
  }

  /** ID conservation holds in every reachable world, races or not. */
  lemma {:induction false} ConservedExec(env: Env, w: World, steps: seq<Step>)
    requires Conserved(w)
    ensures Conserved(Exec(env, w, steps))
  {
    if steps != [] {
      ConservedExec(env, w, steps[..|steps| - 1]);
      ConservedNext(env, Exec(env, w, steps[..|steps| - 1]), steps[|steps| - 1]);
    }
  }

  lemma IDsAreConserved(env: Env, w: World)
    requires Reachable(env, w)
    ensures w.store.count == 1 + Tally(w.inserted, OfClient) + |w.store.clusters| + w.refused + AddingNow(w.conns)
  {
    var regID, steps :| Reaching(env, regID, steps, w);
    ConservedExec(env, Start(env, regID), steps);
  }

  // ---------------------------------------------------------------- fresh IDs

  predicate Inserting(pc: Pc) {
    pc.Issuing? || pc.Vouching?
  }

  ghost predicate DistinctIDs(inserted: seq<Insertion>) {
    forall i, j | 0 <= i < j < |inserted| :: inserted[i].id != inserted[j].id
  }

  /** Two sessions hold one ID between its check and its insertion. */
  ghost predicate Twins(w: World, j: nat, k: nat) {
    && j < |w.conns| && k < |w.conns| && j != k
    && Inserting(w.conns[j].sess.pc) && Inserting(w.conns[k].sess.pc)
    && w.conns[j].sess.pc.id == w.conns[k].sess.pc.id
  }

  ghost predicate TwinFree(w: World) {
    !w.crashed ==> forall j: nat, k: nat :: !Twins(w, j, k)
  }

  ghost predicate Unused(inserted: seq<Insertion>, id: Bytes) {
    forall i | 0 <= i < |inserted| :: inserted[i].id != id
  }

  /** No ID was inserted twice, and none that is held has been inserted. */
  ghost predicate Fresh(w: World) {
    && DistinctIDs(w.inserted)
    && forall k | 0 <= k < |w.conns| && Inserting(w.conns[k].sess.pc) :: Unused(w.inserted, w.conns[k].sess.pc.id)
  }

  lemma FreshNext(env: Env, w: World, a: Step)
    requires FilterOk(env, w) && Fresh(w) && TwinFree(w)
    ensures Fresh(Next(env, w, a))
  {
    if Enabled(w, a) && !a.Connect? {
      if a.Work? {
        FreshWork(env, w, a.k, a.draw);
      } else {
        QuietStep(env, w, a);
      }
    }
  }

  lemma FreshWork(env: Env, w: World, k: nat, draw: Bytes)
    requires FilterOk(env, w) && Fresh(w) && TwinFree(w) && Enabled(w, Work(k, draw))
    ensures Fresh(Next(env, w, Work(k, draw)))
  {
    var s := w.conns[k].sess;
    WorkOnce(env, w, k, draw);
    AdvanceUnknown(env, w.store, s, draw);
    var w' := Next(env, w, Work(k, draw));
    DistinctAfter(env, w, k, draw);
    forall j | 0 <= j < |w'.conns| && Inserting(w'.conns[j].sess.pc)
      ensures Unused(w'.inserted, w'.conns[j].sess.pc.id)
    {
      if j != k && Inserting(s.pc) {
        assert !Twins(w, j, k);
      } else if j == k {
        UnknownIsUnused(env, w, w'.conns[k].sess.pc.id);
      }
    }
  }

  /** What the filter does not know was never inserted. */
  lemma UnknownIsUnused(env: Env, w: World, id: Bytes)
    requires FilterOk(env, w) && !Has(env, w.store, id)
    ensures Unused(w.inserted, id)
  {
  }

  /** One more section repeats no ID, as long as what its session holds is unused. */
  lemma DistinctAfter(env: Env, w: World, k: nat, draw: Bytes)
    requires Fresh(w)
    ensures DistinctIDs(Next(env, w, Work(k, draw)).inserted)
  {
    if Enabled(w, Work(k, draw)) {
      WorkOnce(env, w, k, draw);
      AdvanceUnknown(env, w.store, w.conns[k].sess, draw);
    }
  }

  lemma AdvanceUnknown(env: Env, st: Store, s: Sess, draw: Bytes)
    requires Refs(st, s)
    ensures var (st', s') := Advance(env, st, s, draw);
            && |Inserts(s)| == (if Inserting(s.pc) then 1 else 0)
            && (Inserting(s.pc) ==> Inserts(s)[0].id == s.pc.id && !Inserting(s'.pc))
            && (Inserting(s'.pc) ==> !Has(env, st, s'.pc.id))
  {
  }

  /** A run in which at no moment two sessions hold one ID. */
  ghost predicate TwinFreeRun(env: Env, regID: Bytes, steps: seq<Step>) {
    forall n | 0 <= n <= |steps| :: TwinFree(Exec(env, Start(env, regID), steps[..n]))
  }

  lemma {:induction false} FreshExec(env: Env, regID: Bytes, steps: seq<Step>)
    requires ValidID(regID) && TwinFreeRun(env, regID, steps)
    ensures Fresh(Exec(env, Start(env, regID), steps))
  {
    StartOk(env, regID);
    if steps != [] {
      var most := steps[..|steps| - 1];
      TwinFreePrefix(env, regID, steps, |most|);
      FreshExec(env, regID, most);
      ExecKeeps(env, Start(env, regID), most);
      assert most == steps[..|most|];
      FreshNext(env, Exec(env, Start(env, regID), most), steps[|steps| - 1]);
    }
  }

  lemma TwinFreePrefix(env: Env, regID: Bytes, steps: seq<Step>, m: nat)
    requires TwinFreeRun(env, regID, steps) && m <= |steps|
    ensures TwinFreeRun(env, regID, steps[..m])
  {
    forall n | 0 <= n <= m ensures TwinFree(Exec(env, Start(env, regID), steps[..m][..n])) {
      assert steps[..m][..n] == steps[..n];
    }
  }

  function IDs(inserted: seq<Insertion>): set<Bytes> {
    if inserted == [] then {} else IDs(inserted[..|inserted| - 1]) + {inserted[|inserted| - 1].id}
  }

  lemma {:induction false} DistinctCount(inserted: seq<Insertion>)
    requires DistinctIDs(inserted)
    ensures |IDs(inserted)| == |inserted|
  {
    if inserted != [] {
      var most, last := inserted[..|inserted| - 1], inserted[|inserted| - 1];
      DistinctCount(most);
      forall x | x in IDs(most) ensures x != last.id {
        var i := IDListed(most, x);
        assert most[i] == inserted[i];
      }
    }
  }

  lemma {:induction false} IDListed(inserted: seq<Insertion>, id: Bytes) returns (i: nat)
    requires id in IDs(inserted)
    ensures i < |inserted| && inserted[i].id == id
  {
    i := |inserted| - 1;
    if inserted[i].id != id {
      i := IDListed(inserted[..i], id);
    }
  }

  /** Despite false positives, as long as no two sessions hold one ID, every inserted ID
      differs from all inserted before it, and the insert count is the number of distinct IDs
      inserted. */
  lemma IssuedIDsAreFresh(env: Env, regID: Bytes, steps: seq<Step>)
    requires ValidID(regID) && TwinFreeRun(env, regID, steps)
    ensures var w := Exec(env, Start(env, regID), steps);
            && (forall i, j | 0 <= i < j < |w.inserted| :: w.inserted[i].id != w.inserted[j].id)
            && w.store.count == |IDs(w.inserted)|
  {
    FreshExec(env, regID, steps);
    StartOk(env, regID);
    ExecKeeps(env, Start(env, regID), steps);
    DistinctCount(Exec(env, Start(env, regID), steps).inserted);
  }

  /** Two sessions holding one ID insert it twice if each takes its next section. */
  lemma TwinsRepeatID(env: Env, w: World, j: nat, k: nat, draw: Bytes)
    requires !w.crashed && Twins(w, j, k) && ValidID(draw)
    ensures var w' := Both(env, w, j, k, draw);
            !DistinctIDs(w'.inserted) && w'.store.count == w.store.count + 2
  {
    var s, t := w.conns[j].sess, w.conns[k].sess;
    WorkOnce(env, w, j, draw);
    InsertingGoesOn(env, w.store, s, draw);
    var w1 := Next(env, w, Work(j, draw));
    WorkOnce(env, w1, k, draw);
    InsertingGoesOn(env, w1.store, t, draw);
    var all, n := Both(env, w, j, k, draw).inserted, |w.inserted|;
    assert all == w.inserted + Inserts(s) + Inserts(t);
    assert all[n].id == all[n + 1].id;
  }

  lemma InsertingGoesOn(env: Env, st: Store, s: Sess, draw: Bytes)
    requires Inserting(s.pc)
    ensures var (st', s') := Advance(env, st, s, draw);
            !s'.pc.Panicked? && st'.count == st.count + 1 && |Inserts(s)| == 1 && Inserts(s)[0].id == s.pc.id
  {
  }

  /** No ID repeats, whichever two sessions take their next section. */
  ghost predicate IDsSafe(env: Env, w: World) {
    && DistinctIDs(w.inserted)
    && forall j: nat, k: nat, draw :: j != k && ValidID(draw) ==> DistinctIDs(Both(env, w, j, k, draw).inserted)
  }

  /** Exactly when IDs are unique: throughout a run no ID is repeated, nor would be by any two
      sessions going on, if and only if at no moment two sessions hold one ID between its check
      and its insertion. */
  lemma IDsDistinctExactlyWhen(env: Env, regID: Bytes, steps: seq<Step>)
    requires ValidID(regID)
    ensures TwinFreeRun(env, regID, steps) <==>
            forall n | 0 <= n <= |steps| :: IDsSafe(env, Exec(env, Start(env, regID), steps[..n]))
  {
    if TwinFreeRun(env, regID, steps) {
      forall n | 0 <= n <= |steps| ensures IDsSafe(env, Exec(env, Start(env, regID), steps[..n])) {
        TwinFreePrefix(env, regID, steps, n);
        FreshExec(env, regID, steps[..n]);
        StartOk(env, regID);
        ExecKeeps(env, Start(env, regID), steps[..n]);
        assert steps[..n] == steps[..n][..n];
        TwinFreeIsSafe(env, Exec(env, Start(env, regID), steps[..n]));
      }
    }
    if forall n | 0 <= n <= |steps| :: IDsSafe(env, Exec(env, Start(env, regID), steps[..n])) {
      forall n | 0 <= n <= |steps| ensures TwinFree(Exec(env, Start(env, regID), steps[..n])) {
        SafeIsTwinFree(env, Exec(env, Start(env, regID), steps[..n]), regID);
      }
    }
  }

  lemma TwinFreeIsSafe(env: Env, w: World)
    requires FilterOk(env, w) && Fresh(w) && TwinFree(w)
    ensures IDsSafe(env, w)
  {
    forall j: nat, k: nat, draw | j != k && ValidID(draw) ensures DistinctIDs(Both(env, w, j, k, draw).inserted) {
      FreshNext(env, w, Work(j, draw));
      DistinctAfter(env, Next(env, w, Work(j, draw)), k, draw);
    }
  }

  lemma SafeIsTwinFree(env: Env, w: World, draw: Bytes)
    requires IDsSafe(env, w) && ValidID(draw)
    ensures TwinFree(w)
  {
    if !w.crashed {
      forall j: nat, k: nat ensures !Twins(w, j, k) {
        if Twins(w, j, k) {
          TwinsRepeatID(env, w, j, k, draw);
          assert false;
        }
      }
    }
  }

  // ---------------------------------------------------------------- distinct member names

  predicate Checked(pc: Pc) {
    pc.IDCheck? || pc.Appending?
  }

  /** Past the name check, and not bound to be refused at the ID check. */
  ghost predicate Live(st: Store, s: Sess) {
    && Checked(s.pc) && s.client.Some? && s.pc.to < |st.clusters|
    && (s.pc.IDCheck? ==> IDFree(st.clusters[s.pc.to]))
  }

  /** Two sessions past the name check bring one name to one cluster. */
  ghost predicate Rivals(w: World, j: nat, k: nat) {
    && j < |w.conns| && k < |w.conns| && j != k
    && Live(w.store, w.conns[j].sess) && Live(w.store, w.conns[k].sess)
    && w.conns[j].sess.pc.to == w.conns[k].sess.pc.to
    && w.conns[j].sess.client.value.base.name == w.conns[k].sess.client.value.base.name
  }

  ghost predicate RivalFree(w: World) {
    !w.crashed ==> forall j: nat, k: nat :: !Rivals(w, j, k)
  }

  ghost predicate FreeFor(st: Store, s: Sess) {
    Checked(s.pc) ==>
      && s.client.Some? && s.pc.to < |st.clusters|
      && (Live(st, s) ==> NameFree(st.clusters[s.pc.to], s.client.value))
  }

  ghost predicate ListsDistinct(st: Store) {
    forall i | 0 <= i < |st.clusters| :: NamesDistinct(st.clusters[i].members)
  }

  /** Names are distinct, and the name of a session past its check is still free. */
  ghost predicate NamesOk(w: World) {
    ListsDistinct(w.store) && forall k | 0 <= k < |w.conns| :: FreeFor(w.store, w.conns[k].sess)
  }

  lemma NamesNext(env: Env, w: World, a: Step)
    requires Inv(env, w) && NamesOk(w) && RivalFree(w)
    ensures NamesOk(Next(env, w, a))
  {
    if Enabled(w, a) && !a.Connect? {
      if a.Work? {
        ReadyToWork(env, w, a.k);
        NamesWork(env, w, a.k, a.draw);
      } else {
        QuietStep(env, w, a);
      }
    }
  }

  /** What a session at a write has in its hands. */
  ghost predicate InOrder(st: Store, s: Sess) {
    && (s.pc.Appending? && s.pc.to < |st.clusters| ==> ClusterOk(st.clusters[s.pc.to]))
    && (s.pc.Adding? ==> s.pc.c.members == [])
  }

  lemma ReadyToWork(env: Env, w: World, k: nat)
    requires Inv(env, w) && k < |w.conns|
    ensures InOrder(w.store, w.conns[k].sess)
  {
    assert ConnOk(env, w.store, w.conns[k]);
    var pc := w.conns[k].sess.pc;
    if pc.Appending? && pc.to < |w.store.clusters| {
      assert Listed(env, w.store.bits, w.store.clusters[pc.to]);
    }
  }

  lemma NamesWork(env: Env, w: World, k: nat, draw: Bytes)
    requires NamesOk(w) && RivalFree(w) && Enabled(w, Work(k, draw)) && InOrder(w.store, w.conns[k].sess)
    ensures NamesOk(Next(env, w, Work(k, draw)))
  {
    var s := w.conns[k].sess;
    var (st', s') := Advance(env, w.store, s, draw);
    WorkOnce(env, w, k, draw);
    AdvanceNames(env, w.store, s, draw);
    forall j | 0 <= j < |w.conns| && j != k ensures FreeFor(st', w.conns[j].sess) {
      assert !Rivals(w, j, k) && FreeFor(w.store, w.conns[j].sess);
      OtherStaysFree(w.store, st', s, w.conns[j].sess);
    }
  }

  /** Another session's name stays free unless this one appends the very same name. */
  lemma OtherStaysFree(st: Store, st': Store, s: Sess, t: Sess)
    requires FreeFor(st, t) && Refs(st, s) && Changes(st, st', s)
    requires s.pc.Appending? && Live(st, t) && t.pc.to == s.pc.to ==> t.client.value.base.name != s.client.value.base.name
    ensures FreeFor(st', t)
  {
  }

  /** The clusters a section leaves: the same, one more member, or one more cluster. */
  ghost predicate Changes(st: Store, st': Store, s: Sess)
    requires Refs(st, s)
  {
    if s.pc.Appending? then st'.clusters == st.clusters[s.pc.to := Append(st.clusters[s.pc.to], s.client.value)]
    else st.clusters <= st'.clusters
  }

  lemma AdvanceNames(env: Env, st: Store, s: Sess, draw: Bytes)
    requires Refs(st, s) && ListsDistinct(st) && InOrder(st, s) && FreeFor(st, s)
    ensures var (st', s') := Advance(env, st, s, draw);
            ListsDistinct(st') && FreeFor(st', s') && Changes(st, st', s)
  {
    if s.pc.Appending? {
      AppendDistinct(st.clusters[s.pc.to], s.client.value);
    } else if s.pc.Adding? {
      AddNames(st, s.pc.c);
    } else {
      OthersKeepLists(env, st, s, draw);
    }
  }

  lemma AddNames(st: Store, c: Cluster)
    requires ListsDistinct(st) && c.members == []
    ensures var st' := AddCluster(st, c).0;
            ListsDistinct(st') && st.clusters <= st'.clusters
  {
    var st' := AddCluster(st, c).0;
    forall i | 0 <= i < |st'.clusters| ensures NamesDistinct(st'.clusters[i].members) {
      assert i < |st.clusters| ==> st'.clusters[i] == st.clusters[i];
    }
  }

  lemma OthersKeepLists(env: Env, st: Store, s: Sess, draw: Bytes)
    requires Refs(st, s) && !s.pc.Appending? && !s.pc.Adding? && FreeFor(st, s)
    ensures var (st', s') := Advance(env, st, s, draw);
            st'.clusters == st.clusters && FreeFor(st', s')
  {
  }

  /** A run in which at no moment two sessions past the name check bring one name to one
      cluster. */
  ghost predicate RivalFreeRun(env: Env, regID: Bytes, steps: seq<Step>) {
    forall n | 0 <= n <= |steps| :: RivalFree(Exec(env, Start(env, regID), steps[..n]))
  }

  lemma RivalFreePrefix(env: Env, regID: Bytes, steps: seq<Step>, m: nat)
    requires RivalFreeRun(env, regID, steps) && m <= |steps|
    ensures RivalFreeRun(env, regID, steps[..m])
  {
    forall n | 0 <= n <= m ensures RivalFree(Exec(env, Start(env, regID), steps[..m][..n])) {
      assert steps[..m][..n] == steps[..n];
    }
  }

  lemma {:induction false} NamesExec(env: Env, regID: Bytes, steps: seq<Step>)
    requires ValidID(regID) && RivalFreeRun(env, regID, steps)
    ensures NamesOk(Exec(env, Start(env, regID), steps))
  {
    StartOk(env, regID);
    if steps != [] {
      var most := steps[..|steps| - 1];
      RivalFreePrefix(env, regID, steps, |most|);
      NamesExec(env, regID, most);
      ExecKeeps(env, Start(env, regID), most);
      assert most == steps[..|most|];
      NamesNext(env, Exec(env, Start(env, regID), most), steps[|steps| - 1]);
    }
  }

  /** As long as no two sessions past the name check bring one name to one cluster, member
      names stay distinct in every cluster and the by-name index is exactly the name view of
      the list. */
  lemma MemberNamesAreDistinct(env: Env, regID: Bytes, steps: seq<Step>, i: nat)
    requires ValidID(regID) && RivalFreeRun(env, regID, steps)
    requires i < |Exec(env, Start(env, regID), steps).store.clusters|
    ensures var c := Exec(env, Start(env, regID), steps).store.clusters[i];
            && NamesDistinct(c.members)
            && (forall n :: n in c.byName <==> Named(c.members, n))
            && forall j | 0 <= j < |c.members| ::
                 c.members[j].base.name in c.byName && c.byName[c.members[j].base.name] == c.members[j]
  {
    NamesExec(env, regID, steps);
    StartOk(env, regID);
    ExecKeeps(env, Start(env, regID), steps);
    var w := Exec(env, Start(env, regID), steps);
    assert Listed(env, w.store.bits, w.store.clusters[i]);
    NameView(w.store.clusters[i]);
  }

  /** The lists after two sessions have each taken two sections, in turn. */
  ghost function Twice(env: Env, w: World, j: nat, k: nat, draw: Bytes): World {
    Both(env, Both(env, w, j, k, draw), j, k, draw)
  }

  /** Both sessions are past the name check of one cluster. */
  ghost predicate Meet(w: World, j: nat, k: nat) {
    && j < |w.conns| && k < |w.conns| && j != k
    && Checked(w.conns[j].sess.pc) && Checked(w.conns[k].sess.pc) && w.conns[j].sess.pc.to == w.conns[k].sess.pc.to
  }

  /** No name repeats, whichever two sessions past the name check of one cluster go on. */
  ghost predicate NamesSafe(env: Env, w: World) {
    && ListsDistinct(w.store)
    && forall j: nat, k: nat, draw :: Meet(w, j, k) && ValidID(draw) ==> ListsDistinct(Twice(env, w, j, k, draw).store)
  }

  /** A session past its name check brings about no new rivals by going on. */
  lemma WorkKeepsPeace(env: Env, w: World, k: nat, draw: Bytes)
    requires Inv(env, w) && NamesOk(w) && RivalFree(w)
    requires k < |w.conns| && (Checked(w.conns[k].sess.pc) || w.conns[k].sess.pc.Ready?)
    ensures var w' := Next(env, w, Work(k, draw));
            && Inv(env, w') && NamesOk(w') && RivalFree(w') && |w'.conns| == |w.conns|
            && (Checked(w'.conns[k].sess.pc) || w'.conns[k].sess.pc.Ready?)
            && forall j | 0 <= j < |w.conns| && j != k :: w'.conns[j] == w.conns[j]
  {
    NextKeeps(env, w, Work(k, draw));
    NamesNext(env, w, Work(k, draw));
    if Enabled(w, Work(k, draw)) {
      WorkOnce(env, w, k, draw);
      StillPeace(env, w, k, draw);
    }
  }

  lemma StillPeace(env: Env, w: World, k: nat, draw: Bytes)
    requires RivalFree(w) && !w.crashed && k < |w.conns| && Checked(w.conns[k].sess.pc) && Refs(w.store, w.conns[k].sess)
    requires Enabled(w, Work(k, draw))
    ensures RivalFree(Next(env, w, Work(k, draw)))
  {
    var w' := Next(env, w, Work(k, draw));
    WorkOnce(env, w, k, draw);
    forall i: nat, j: nat ensures !Rivals(w', i, j) {
      assert !Rivals(w, i, j);
      if i < |w.conns| && j < |w.conns| {
        LiveBefore(env, w, k, draw, i);
        LiveBefore(env, w, k, draw, j);
      }
    }
  }

  /** Whoever is live after a checked session's section was live before it, for the same
      cluster and client. */
  lemma LiveBefore(env: Env, w: World, k: nat, draw: Bytes, i: nat)
    requires !w.crashed && k < |w.conns| && i < |w.conns| && Checked(w.conns[k].sess.pc)
    requires Enabled(w, Work(k, draw))
    ensures var w' := Next(env, w, Work(k, draw));
            && i < |w'.conns|
            && (Live(w'.store, w'.conns[i].sess) ==>
                  && Live(w.store, w.conns[i].sess) && w'.conns[i].sess.pc.to == w.conns[i].sess.pc.to
                  && w'.conns[i].sess.client == w.conns[i].sess.client)
  {
    WorkOnce(env, w, k, draw);
  }

  lemma PeaceIsSafe(env: Env, w: World)
    requires Inv(env, w) && NamesOk(w) && RivalFree(w)
    ensures NamesSafe(env, w)
  {
    forall j: nat, k: nat, draw | Meet(w, j, k) && ValidID(draw)
      ensures ListsDistinct(Twice(env, w, j, k, draw).store)
    {
      WorkKeepsPeace(env, w, j, draw);
      var w1 := Next(env, w, Work(j, draw));
      WorkKeepsPeace(env, w1, k, draw);
      var w2 := Both(env, w, j, k, draw);
      WorkKeepsPeace(env, w2, j, draw);
      WorkKeepsPeace(env, Next(env, w2, Work(j, draw)), k, draw);
    }
  }

  /** Two rivals list the name twice, if the one that is behind goes first. */
  lemma RivalsRepeatName(env: Env, w: World, j: nat, k: nat, draw: Bytes)
    requires !w.crashed && Rivals(w, j, k) && ValidID(draw)
    requires w.conns[j].sess.pc.Appending? ==> w.conns[k].sess.pc.Appending?
    ensures var (v, c) := (Twice(env, w, j, k, draw), w.conns[j].sess.pc.to);
            c < |v.store.clusters| && !NamesDistinct(v.store.clusters[c].members)
  {
    var c := w.conns[j].sess.pc.to;
    if w.conns[k].sess.pc.IDCheck? {
      BothCheck(env, w, j, k, c, draw);
      BothAppend(env, Both(env, w, j, k, draw), j, k, c, draw);
    } else if w.conns[j].sess.pc.Appending? {
      BothAppend(env, w, j, k, c, draw);
      BothDone(env, Both(env, w, j, k, draw), j, k, draw);
    } else {
      OneBehind(env, w, j, k, c, draw);
    }
  }

  lemma BothCheck(env: Env, w: World, j: nat, k: nat, c: nat, draw: Bytes)
    requires Joining(w, j, k, c) && ValidID(draw) && IDFree(w.store.clusters[c])
    requires w.conns[j].sess.pc == IDCheck(c) && w.conns[k].sess.pc == IDCheck(c)
    ensures var w' := Both(env, w, j, k, draw);
            && Joining(w', j, k, c) && w'.store == w.store
            && w'.conns[j].sess.pc == Appending(c) && w'.conns[k].sess.pc == Appending(c)
  {
    WorkOnce(env, w, j, draw);
    WorkOnce(env, Next(env, w, Work(j, draw)), k, draw);
  }

  lemma BothDone(env: Env, w: World, j: nat, k: nat, draw: Bytes)
    requires j < |w.conns| && k < |w.conns| && w.conns[j].sess.pc.Ready? && w.conns[k].sess.pc.Ready?
    ensures Both(env, w, j, k, draw) == w
  {
  }

  lemma OneBehind(env: Env, w: World, j: nat, k: nat, c: nat, draw: Bytes)
    requires Joining(w, j, k, c) && ValidID(draw) && IDFree(w.store.clusters[c])
    requires w.conns[j].sess.pc == IDCheck(c) && w.conns[k].sess.pc == Appending(c)
    ensures var v := Twice(env, w, j, k, draw);
            c < |v.store.clusters| && !NamesDistinct(v.store.clusters[c].members)
  {
    WorkOnce(env, w, j, draw);
    var w1 := Next(env, w, Work(j, draw));
    WorkOnce(env, w1, k, draw);
    var w2 := Both(env, w, j, k, draw);
    WorkOnce(env, w2, j, draw);
    var w3 := Next(env, w2, Work(j, draw));
    assert w3.conns[k].sess.pc.Ready?;
    assert Twice(env, w, j, k, draw) == Next(env, w3, Work(k, draw)) == w3;
    NamedTwice(w.store.clusters[c].members, w.conns[k].sess.client.value, w.conns[j].sess.client.value);
  }

  lemma SafeIsPeace(env: Env, w: World, draw: Bytes)
    requires NamesSafe(env, w) && ValidID(draw)
    ensures RivalFree(w)
  {
    if !w.crashed {
      forall j: nat, k: nat ensures !Rivals(w, j, k) {
        if Rivals(w, j, k) {
          if w.conns[j].sess.pc.Appending? {
            assert Rivals(w, k, j);
            RivalsRepeatName(env, w, k, j, draw);
            assert Meet(w, k, j);
          } else {
            RivalsRepeatName(env, w, j, k, draw);
            assert Meet(w, j, k);
          }
          assert false;
        }
      }
    }
  }

  /** Exactly when member names are unique: throughout a run no name is listed twice, nor
      would be by any two sessions past the name check going on, if and only if at no moment
      two of them bring one name to one cluster. */
  lemma NamesDistinctExactlyWhen(env: Env, regID: Bytes, steps: seq<Step>)
    requires ValidID(regID)
    ensures RivalFreeRun(env, regID, steps) <==>
            forall n | 0 <= n <= |steps| :: NamesSafe(env, Exec(env, Start(env, regID), steps[..n]))
  {
    if RivalFreeRun(env, regID, steps) {
      forall n | 0 <= n <= |steps| ensures NamesSafe(env, Exec(env, Start(env, regID), steps[..n])) {
        RivalFreePrefix(env, regID, steps, n);
        NamesExec(env, regID, steps[..n]);
        StartOk(env, regID);
        ExecKeeps(env, Start(env, regID), steps[..n]);
        PeaceIsSafe(env, Exec(env, Start(env, regID), steps[..n]));
      }
    }
    if forall n | 0 <= n <= |steps| :: NamesSafe(env, Exec(env, Start(env, regID), steps[..n])) {
      forall n | 0 <= n <= |steps| ensures RivalFree(Exec(env, Start(env, regID), steps[..n])) {
        SafeIsPeace(env, Exec(env, Start(env, regID), steps[..n]), regID);
      }
    }
  }

  /** In every run: by-name entries are listed members of that name, and the by-ID entry is
      the last member listed with its ID. */
  lemma MemberIndexesAreListed(env: Env, w: World, i: nat)
    requires Reachable(env, w) && i < |w.store.clusters|
    ensures NameIndex(w.store.clusters[i].members, w.store.clusters[i].byName)
    ensures IDIndex(w.store.clusters[i].members, w.store.clusters[i].byID)
  {
    ReachableOk(env, w);
    assert Listed(env, w.store.bits, w.store.clusters[i]);
  }

  // ---------------------------------------------------------------- what an overlap does

  /** Two sessions bringing one ID the filter does not know, their InsertIDs overlapping:
      both pass the check, and the ID is inserted twice. */
  lemma OverlapRepeatsID(env: Env, w: World, j: nat, k: nat, draw: Bytes)
    requires !w.crashed && j < |w.conns| && k < |w.conns| && j != k && ValidID(draw)
    requires w.conns[j].sess.pc.Recheck? && w.conns[k].sess.pc.Recheck?
    requires w.conns[j].sess.pc.id == w.conns[k].sess.pc.id && !Has(env, w.store, w.conns[j].sess.pc.id)
    ensures var w' := Both(env, Both(env, w, j, k, draw), j, k, draw);
            !DistinctIDs(w'.inserted) && w'.store.count == w.store.count + 2
  {
    WorkOnce(env, w, j, draw);
    WorkOnce(env, Next(env, w, Work(j, draw)), k, draw);
    TwinsRepeatID(env, Both(env, w, j, k, draw), j, k, draw);
  }

  /** The world after sessions j and then k each ran one critical section. */
  ghost function Both(env: Env, w: World, j: nat, k: nat, draw: Bytes): World {
    Next(env, Next(env, w, Work(j, draw)), Work(k, draw))
  }

  ghost predicate Joining(w: World, j: nat, k: nat, c: nat) {
    && !w.crashed && j < |w.conns| && k < |w.conns| && j != k && c < |w.store.clusters|
    && w.conns[j].sess.client.Some? && w.conns[k].sess.client.Some?
    && w.conns[j].sess.client.value.base.name == w.conns[k].sess.client.value.base.name
  }

  /** Both find the name they share free. */
  lemma BothPass(env: Env, w: World, j: nat, k: nat, c: nat, draw: Bytes)
    requires Joining(w, j, k, c) && ValidID(draw) && NameFree(w.store.clusters[c], w.conns[j].sess.client.value)
    requires w.conns[j].sess.pc == NameCheck(c) && w.conns[k].sess.pc == NameCheck(c)
    ensures var w' := Both(env, w, j, k, draw);
            && Joining(w', j, k, c) && w'.store == w.store
            && w'.conns[j].sess.pc == IDCheck(c) && w'.conns[k].sess.pc == IDCheck(c)
  {
    WorkOnce(env, w, j, draw);
    WorkOnce(env, Next(env, w, Work(j, draw)), k, draw);
  }

  /** Both append the name they share, and are done. */
  lemma BothAppend(env: Env, w: World, j: nat, k: nat, c: nat, draw: Bytes)
    requires Joining(w, j, k, c) && ValidID(draw)
    requires w.conns[j].sess.pc == Appending(c) && w.conns[k].sess.pc == Appending(c)
    ensures var w' := Both(env, w, j, k, draw);
            && c < |w'.store.clusters| && !NamesDistinct(w'.store.clusters[c].members)
            && |w'.conns| == |w.conns| && w'.conns[j].sess.pc.Ready? && w'.conns[k].sess.pc.Ready?
  {
    WorkOnce(env, w, j, draw);
    WorkOnce(env, Next(env, w, Work(j, draw)), k, draw);
    NamedTwice(w.store.clusters[c].members, w.conns[j].sess.client.value, w.conns[k].sess.client.value);
  }

  /** Two sessions joining one cluster with one member name, their AddMember calls
      overlapping: both are appended, and the names are no longer distinct. */
  lemma OverlapRepeatsName(env: Env, w: World, j: nat, k: nat, c: nat, draw: Bytes)
    requires Joining(w, j, k, c) && ValidID(draw)
    requires w.conns[j].sess.pc == NameCheck(c) && w.conns[k].sess.pc == NameCheck(c)
    requires NameFree(w.store.clusters[c], w.conns[j].sess.client.value) && IDFree(w.store.clusters[c])
    ensures var w' := Both(env, Both(env, Both(env, w, j, k, draw), j, k, draw), j, k, draw);
            c < |w'.store.clusters| && !NamesDistinct(w'.store.clusters[c].members)
  {
    BothPass(env, w, j, k, c, draw);
    var w1 := Both(env, w, j, k, draw);
    BothCheck(env, w1, j, k, c, draw);
    var w2 := Both(env, w1, j, k, draw);
    BothAppend(env, w2, j, k, c, draw);
  }

  lemma NamedTwice(ms: seq<ClientInfo>, a: ClientInfo, b: ClientInfo)
    requires a.base.name == b.base.name
    ensures !NamesDistinct(ms + [a] + [b])
  {
    var all, n := ms + [a] + [b], |ms|;
    assert all[n] == a && all[n + 1] == b;
  }
}
