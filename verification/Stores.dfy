/** The shared stores as values: the ID filter, a cluster's member list with its two
    indexes, and the registry's cluster list with its two indexes. Each function here is
    one critical section, so runs can interleave them. */
module Stores {
  import opened Types

  // ---------------------------------------------------------------- the ID filter

  /** The filter's answer: yes when every position of the ID is set. */
  predicate Has(env: Env, st: Store, id: Bytes) {
    env.keys(id) <= st.bits
  }

  function InsertBits(env: Env, st: Store, id: Bytes): Store {
    st.(bits := st.bits + env.keys(id), count := st.count + 1)
  }

  // ---------------------------------------------------------------- a new cluster

  function EffectiveName(name: string): string {
    if name == "" then "xlCluster" else name
  }

  /** NewRegCluster. Creating the member index overwrites the error of an endpoint count
      below one, so only a zero size with a proper endpoint count is refused. */
  function NewRegCluster(name: string, id: Bytes, attrs: uint64, maxSize: uint32, epCount: uint32): Option<Cluster> {
    if epCount >= 1 && maxSize < 1 then None
    else Some(Cluster(EffectiveName(name), id, attrs, maxSize, epCount, [], map[], map[]))
  }

  // ---------------------------------------------------------------- members of a cluster

  /** The two checks AddMember makes before it appends. The second one looks up the
      cluster's own ID, not the member's. */
  predicate NameFree(c: Cluster, m: ClientInfo) {
    m.base.name !in c.byName
  }

  predicate IDFree(c: Cluster) {
    c.id !in c.byID
  }

  function Append(c: Cluster, m: ClientInfo): Cluster {
    c.(members := c.members + [m],
       byName := c.byName[m.base.name := m],
       byID := c.byID[m.base.id := m])
  }

  /** AddMember when no other call overlaps it; None when it is refused. */
  function AddMember(c: Cluster, m: ClientInfo): Option<Cluster> {
    if NameFree(c, m) && IDFree(c) then Some(Append(c, m)) else None
  }

  ghost predicate NamesDistinct(ms: seq<ClientInfo>) {
    forall i, j | 0 <= i < j < |ms| :: ms[i].base.name != ms[j].base.name
  }

  ghost predicate Named(ms: seq<ClientInfo>, name: string) {
    exists i :: 0 <= i < |ms| && ms[i].base.name == name
  }

  /** `m` is the last listed member with its ID. */
  ghost predicate LastWithID(ms: seq<ClientInfo>, i: int) {
    0 <= i < |ms| && forall j | i < j < |ms| :: ms[j].base.id != ms[i].base.id
  }

  /** The by-name keys are exactly the names listed, and an entry is a listed member with
      that name. */
  ghost predicate NameIndex(ms: seq<ClientInfo>, byName: map<string, ClientInfo>) {
    && (forall n :: n in byName <==> Named(ms, n))
    && (forall n | n in byName :: byName[n] in ms && byName[n].base.name == n)
  }

  /** The by-ID keys are exactly the IDs listed, and an entry is the last member with that ID. */
  ghost predicate IDIndex(ms: seq<ClientInfo>, byID: map<Bytes, ClientInfo>) {
    && (forall i | 0 <= i < |ms| :: ms[i].base.id in byID)
    && (forall d | d in byID :: exists i :: LastWithID(ms, i) && ms[i] == byID[d] && ms[i].base.id == d)
  }

  /** Kept by every interleaving. */
  ghost predicate ClusterOk(c: Cluster) {
    && 2 <= c.maxSize <= 64 && ValidID(c.id) && c.name != ""
    && NameIndex(c.members, c.byName)
    && IDIndex(c.members, c.byID)
  }

  lemma NameIndexKeeps(ms: seq<ClientInfo>, byName: map<string, ClientInfo>, m: ClientInfo)
    requires NameIndex(ms, byName)
    ensures NameIndex(ms + [m], byName[m.base.name := m])
  {
    var ms' := ms + [m];
    assert ms'[|ms|] == m;
    forall n ensures Named(ms', n) <==> Named(ms, n) || n == m.base.name {
      if i :| 0 <= i < |ms| && ms[i].base.name == n {
        assert ms'[i] == ms[i];
      }
    }
  }

  lemma IDIndexKeeps(ms: seq<ClientInfo>, byID: map<Bytes, ClientInfo>, m: ClientInfo)
    requires IDIndex(ms, byID)
    ensures IDIndex(ms + [m], byID[m.base.id := m])
  {
    var ms', byID' := ms + [m], byID[m.base.id := m];
    forall d | d in byID'
      ensures exists i :: LastWithID(ms', i) && ms'[i] == byID'[d] && ms'[i].base.id == d
    {
      if d == m.base.id {
        assert LastWithID(ms', |ms|);
      } else {
        var i :| LastWithID(ms, i) && ms[i] == byID[d] && ms[i].base.id == d;
        assert LastWithID(ms', i);
      }
    }
  }

  lemma AppendKeeps(c: Cluster, m: ClientInfo)
    requires ClusterOk(c)
    ensures ClusterOk(Append(c, m))
  {
    NameIndexKeeps(c.members, c.byName, m);
    IDIndexKeeps(c.members, c.byID, m);
  }

  /** Appending keeps names distinct exactly when the name was free at that moment: the
      read-locked check guarantees it only if no other call appends in between. */
  lemma AppendDistinct(c: Cluster, m: ClientInfo)
    requires ClusterOk(c)
    ensures NamesDistinct(Append(c, m).members) <==> NamesDistinct(c.members) && NameFree(c, m)
  {
    if NamesDistinct(Append(c, m).members) {
      DistinctBefore(c, m);
    }
    if NamesDistinct(c.members) && NameFree(c, m) {
      forall i | 0 <= i < |c.members| ensures c.members[i].base.name != m.base.name {
        assert !Named(c.members, m.base.name);
      }
    }
  }

  lemma DistinctBefore(c: Cluster, m: ClientInfo)
    requires NameIndex(c.members, c.byName) && NamesDistinct(Append(c, m).members)
    ensures NamesDistinct(c.members) && NameFree(c, m)
  {
    var ms := c.members + [m];
    forall i, j | 0 <= i < j < |c.members| ensures c.members[i].base.name != c.members[j].base.name {
      assert ms[i] == c.members[i] && ms[j] == c.members[j];
    }
    forall i | 0 <= i < |c.members| ensures c.members[i].base.name != m.base.name {
      assert ms[i] == c.members[i] && ms[|c.members|] == m;
    }
  }

  ghost predicate IDsDistinct(ms: seq<ClientInfo>) {
    forall i, j | 0 <= i < j < |ms| :: ms[i].base.id != ms[j].base.id
  }

  /** Appending keeps member IDs distinct exactly when the by-ID index did not have the
      member's ID: the key that AddMember never looks up. */
  lemma AppendDistinctIDs(c: Cluster, m: ClientInfo)
    requires ClusterOk(c)
    ensures IDsDistinct(Append(c, m).members) <==> IDsDistinct(c.members) && m.base.id !in c.byID
  {
    if IDsDistinct(Append(c, m).members) {
      IDsBefore(c, m);
    }
    if IDsDistinct(c.members) && m.base.id !in c.byID {
      forall i | 0 <= i < |c.members| ensures c.members[i].base.id != m.base.id {
      }
    }
  }

  lemma IDsBefore(c: Cluster, m: ClientInfo)
    requires IDIndex(c.members, c.byID) && IDsDistinct(Append(c, m).members)
    ensures IDsDistinct(c.members) && m.base.id !in c.byID
  {
    var ms := c.members + [m];
    forall i, j | 0 <= i < j < |c.members| ensures c.members[i].base.id != c.members[j].base.id {
      assert ms[i] == c.members[i] && ms[j] == c.members[j];
    }
    forall i | 0 <= i < |c.members| ensures c.members[i].base.id != m.base.id {
      assert ms[i] == c.members[i] && ms[|c.members|] == m;
    }
  }

  /** With distinct names the by-name index is exactly the name view of the list. */
  lemma NameView(c: Cluster)
    requires ClusterOk(c) && NamesDistinct(c.members)
    ensures forall i | 0 <= i < |c.members| ::
              c.members[i].base.name in c.byName && c.byName[c.members[i].base.name] == c.members[i]
  {
    forall i | 0 <= i < |c.members|
      ensures c.members[i].base.name in c.byName && c.byName[c.members[i].base.name] == c.members[i]
    {
      assert Named(c.members, c.members[i].base.name);
      var m := c.byName[c.members[i].base.name];
      var j :| 0 <= j < |c.members| && c.members[j] == m;
      assert i == j;
    }
  }

  // ---------------------------------------------------------------- clusters of the registry

  /** AddCluster under the registry's write lock; -1 and no change when refused. */
  function AddCluster(st: Store, c: Cluster): (r: (Store, int)) {
    if c.name in st.byName || c.id in st.byID then (st, -1)
    else (st.(clusters := st.clusters + [c],
              byName := st.byName[c.name := |st.clusters|],
              byID := st.byID[c.id := |st.clusters|]),
          |st.clusters|)
  }

  /** The list and both indexes describe the same clusters. */
  ghost predicate Indexed(st: Store) {
    && (forall i | 0 <= i < |st.clusters| ::
          && st.clusters[i].name in st.byName && st.byName[st.clusters[i].name] == i
          && st.clusters[i].id in st.byID && st.byID[st.clusters[i].id] == i)
    && (forall n | n in st.byName :: st.byName[n] < |st.clusters| && st.clusters[st.byName[n]].name == n)
    && (forall d | d in st.byID :: st.byID[d] < |st.clusters| && st.clusters[st.byID[d]].id == d)
  }

  /** A listed cluster is well indexed, and the filter knows its ID and its members' IDs. */
  ghost predicate Listed(env: Env, bits: set<nat>, c: Cluster) {
    && ClusterOk(c)
    && env.keys(c.id) <= bits
    && forall i | 0 <= i < |c.members| :: env.keys(c.members[i].base.id) <= bits
  }

  ghost predicate StoreOk(env: Env, st: Store) {
    && Indexed(st)
    && forall i | 0 <= i < |st.clusters| :: Listed(env, st.bits, st.clusters[i])
  }

  /** The same cluster later: its identity is unchanged and its member list only grew. */
  ghost predicate SameCluster(a: Cluster, b: Cluster) {
    && a.name == b.name && a.id == b.id && a.attrs == b.attrs
    && a.maxSize == b.maxSize && a.epCount == b.epCount
    && a.members <= b.members
  }

  /** Everything the stores guarantee about any later state: the filter keeps its bits,
      clusters keep their positions, member lists keep their prefixes. */
  ghost predicate Grows(a: Store, b: Store) {
    && a.bits <= b.bits && a.count <= b.count
    && |a.clusters| <= |b.clusters|
    && (forall i | 0 <= i < |a.clusters| :: SameCluster(a.clusters[i], b.clusters[i]))
    && (forall n | n in a.byName :: n in b.byName && b.byName[n] == a.byName[n])
    && (forall d | d in a.byID :: d in b.byID && b.byID[d] == a.byID[d])
  }

  lemma GrowsTransitive(a: Store, b: Store, c: Store)
    requires Grows(a, b) && Grows(b, c)
    ensures Grows(a, c)
  {
    forall i | 0 <= i < |a.clusters| ensures SameCluster(a.clusters[i], c.clusters[i]) {
      assert SameCluster(b.clusters[i], c.clusters[i]);
    }
  }

  lemma InsertKeeps(env: Env, st: Store, id: Bytes)
    requires StoreOk(env, st)
    ensures var st' := InsertBits(env, st, id);
            StoreOk(env, st') && Grows(st, st') && Has(env, st', id)
  {
    var st' := InsertBits(env, st, id);
    forall i | 0 <= i < |st.clusters| ensures Listed(env, st'.bits, st'.clusters[i]) {
      assert Listed(env, st.bits, st.clusters[i]);
    }
  }

  /** A refused cluster changes nothing and is answered -1; an accepted one takes the next
      position, which it keeps. */
  lemma AddClusterKeeps(env: Env, st: Store, c: Cluster)
    requires StoreOk(env, st) && Listed(env, st.bits, c)
    ensures var (st', index) := AddCluster(st, c);
            && StoreOk(env, st') && Grows(st, st')
            && (index == -1 <==> c.name in st.byName || c.id in st.byID)
            && (index == -1 ==> st' == st)
            && (index != -1 ==> index == |st.clusters| && st'.clusters == st.clusters + [c])
  {
    var (st', index) := AddCluster(st, c);
    if index != -1 {
      forall i | 0 <= i < |st'.clusters| ensures Listed(env, st'.bits, st'.clusters[i]) {
        assert i < |st.clusters| ==> Listed(env, st.bits, st.clusters[i]);
      }
      AddClusterIndexed(st, c);
      forall i | 0 <= i < |st.clusters| ensures SameCluster(st.clusters[i], st'.clusters[i]) {
        assert st'.clusters[i] == st.clusters[i];
      }
    }
  }

  lemma AddClusterIndexed(st: Store, c: Cluster)
    requires Indexed(st)
    ensures Indexed(AddCluster(st, c).0)
  {
  }

  function WithMember(st: Store, i: nat, m: ClientInfo): Store
    requires i < |st.clusters|
  {
    st.(clusters := st.clusters[i := Append(st.clusters[i], m)])
  }

  lemma WithMemberKeeps(env: Env, st: Store, i: nat, m: ClientInfo)
    requires StoreOk(env, st) && i < |st.clusters| && Has(env, st, m.base.id)
    ensures StoreOk(env, WithMember(st, i, m)) && Grows(st, WithMember(st, i, m))
  {
    var st' := WithMember(st, i, m);
    AppendKeeps(st.clusters[i], m);
    forall j | 0 <= j < |st'.clusters|
      ensures Listed(env, st'.bits, st'.clusters[j]) && SameCluster(st.clusters[j], st'.clusters[j])
    {
      assert Listed(env, st.bits, st.clusters[j]);
    }
    WithMemberIndexed(st, i, m);
  }

  lemma WithMemberIndexed(st: Store, i: nat, m: ClientInfo)
    requires Indexed(st) && i < |st.clusters|
    ensures Indexed(WithMember(st, i, m))
  {
    var st' := WithMember(st, i, m);
    forall j | 0 <= j < |st'.clusters|
      ensures st'.clusters[j].name == st.clusters[j].name && st'.clusters[j].id == st.clusters[j].id
    {
    }
  }

  /** Names and IDs of listed clusters are pairwise distinct. */
  lemma ClustersDistinct(st: Store, i: nat, j: nat)
    requires Indexed(st) && i < j < |st.clusters|
    ensures st.clusters[i].name != st.clusters[j].name && st.clusters[i].id != st.clusters[j].id
  {
    assert st.byName[st.clusters[i].name] == i && st.byID[st.clusters[i].id] == i;
  }
}
