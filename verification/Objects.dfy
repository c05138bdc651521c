/** The server's objects, which it updates in place: clusters, the registry and the handler
    of one connection. Each method is proved against the value-level steps. */
module Objects {
  import opened Types
  import opened Stores
  import opened Whole

  class RegCluster {
    const name: string
    const id: Bytes
    const attrs: uint64
    const maxSize: uint32
    const epCount: uint32
    var members: seq<ClientInfo>
    var membersByName: map<string, ClientInfo>
    var membersByID: map<Bytes, ClientInfo>

    constructor (name: string, id: Bytes, attrs: uint64, maxSize: uint32, epCount: uint32)
      ensures View() == Cluster(name, id, attrs, maxSize, epCount, [], map[], map[])
    {
      this.name, this.id, this.attrs, this.maxSize, this.epCount := name, id, attrs, maxSize, epCount;
      members, membersByName, membersByID := [], map[], map[];
    }

    function View(): Cluster
      reads this
    {
      Cluster(name, id, attrs, maxSize, epCount, members, membersByName, membersByID)
    }

    /** NewRegCluster: the second branch makes the member index and, with it, a new err. */
    static method Make(name: string, id: Bytes, attrs: uint64, maxSize: uint32, epCount: uint32)
        returns (rc: RegCluster?)
      ensures rc == null ==> NewRegCluster(name, id, attrs, maxSize, epCount).None?
      ensures rc != null ==> fresh(rc) && NewRegCluster(name, id, attrs, maxSize, epCount) == Some(rc.View())
    {
      var effective := if name == "" then "xlCluster" else name;
      var err := false;
      if epCount < 1 {
        err := true;
      }
      if !err && maxSize < 1 {
        err := true;
      } else {
        err := false;
      }
      if err {
        return null;
      }
      rc := new RegCluster(effective, id, attrs, maxSize, epCount);
    }

    method AddMember(member: ClientInfo) returns (ok: bool)
      modifies this
      ensures ok <==> Stores.AddMember(old(View()), member).Some?
      ensures View() == if ok then Append(old(View()), member) else old(View())
    {
      var name := member.base.name;
      if name in membersByName {
        return false;
      }
      if id in membersByID {
        return false;
      }
      members := members + [member];
      membersByName := membersByName[name := member];
      membersByID := membersByID[member.base.id := member];
      ok := true;
    }
  }

  /** An index of pointers, against the same index of positions. */
  ghost predicate SameIndex<K(!new)>(cs: seq<RegCluster>, pointers: map<K, RegCluster>, positions: map<K, nat>) {
    && (forall k :: k in pointers <==> k in positions)
    && (forall k | k in pointers :: positions[k] < |cs| && cs[positions[k]] == pointers[k])
  }

  lemma SameIndexGrows<K(!new)>(cs: seq<RegCluster>, pointers: map<K, RegCluster>, positions: map<K, nat>, k: K, c: RegCluster)
    requires SameIndex(cs, pointers, positions)
    ensures SameIndex(cs + [c], pointers[k := c], positions[k := |cs|])
  {
  }

  /** A list of clusters with its two indexes stands for the clusters and indexes of a store. */
  ghost predicate Represents(cs: seq<RegCluster>, byName: map<string, RegCluster>, byID: map<Bytes, RegCluster>,
                             listed: set<RegCluster>, st: Store)
    reads listed
  {
    && |st.clusters| == |cs|
    && (forall i | 0 <= i < |cs| :: cs[i] in listed && cs[i].View() == st.clusters[i])
    && SameIndex(cs, byName, st.byName)
    && SameIndex(cs, byID, st.byID)
    && Indexed(st)
  }

  lemma RepresentsMore(cs: seq<RegCluster>, byName: map<string, RegCluster>, byID: map<Bytes, RegCluster>,
                       listed: set<RegCluster>, st: Store, c: RegCluster)
    requires Represents(cs, byName, byID, listed, st) && c.name !in byName && c.id !in byID
    ensures Represents(cs + [c], byName[c.name := c], byID[c.id := c], listed + {c}, AddCluster(st, c.View()).0)
  {
    SameIndexGrows(cs, byName, st.byName, c.name, c);
    SameIndexGrows(cs, byID, st.byID, c.id, c);
    AddClusterIndexed(st, c.View());
  }

  class Registry {
    const env: Env
    var idBits: set<nat>
    var idCount: nat
    var clusters: seq<RegCluster>
    var clustersByName: map<string, RegCluster>
    var clustersByID: map<Bytes, RegCluster>
    ghost var listed: set<RegCluster>
    ghost var model: Store // the store that the fields stand for

    /** NewRegistry with an empty filter and no clusters: its own ID goes in, unless even the
        empty filter answers yes for it. */
    constructor (env: Env, regID: Bytes)
      ensures Valid() && this.env == env && clusters == [] && listed == {}
      ensures model == if env.keys(regID) == {} then Store({}, 0, [], map[], map[])
                       else Store(env.keys(regID), 1, [], map[], map[])
    {
      this.env := env;
      idBits, idCount, clusters, clustersByName, clustersByID := {}, 0, [], map[], map[];
      listed, model := {}, Store({}, 0, [], map[], map[]);
      new;
      var inUse := InsertID(regID);
    }

    ghost predicate Valid()
      reads this, listed
    {
      && model.bits == idBits && model.count == idCount
      && Represents(clusters, clustersByName, clustersByID, listed, model)
    }

    method ContainsID(n: Bytes) returns (found: bool)
      requires Valid()
      ensures found == Has(env, model, n)
    {
      found := env.keys(n) <= idBits;
    }

    /** Refuses an ID the filter already answers yes for. */
    method InsertID(n: Bytes) returns (inUse: bool)
      requires Valid()
      modifies this`idBits, this`idCount, this`model
      ensures Valid() && inUse == Has(env, old(model), n)
      ensures model == if inUse then old(model) else InsertBits(env, old(model), n)
    {
      inUse := env.keys(n) <= idBits;
      if !inUse {
        idBits := idBits + env.keys(n);
        idCount := idCount + 1;
        model := InsertBits(env, model, n);
      }
    }

    /** Draws until the filter does not know the ID, and inserts that one; None when the
        source of randomness gave no such ID. */
    method InsertUniqueNodeID(draws: seq<Bytes>) returns (id: Option<Bytes>, rest: seq<Bytes>)
      requires Valid()
      modifies this`idBits, this`idCount, this`model
      ensures Valid()
      ensures match FirstFresh(env, old(model), draws)
              case None => id == None && model == old(model)
              case Some(i) => && id == Some(draws[i]) && rest == draws[i + 1..]
                              && model == InsertBits(env, old(model), draws[i])
    {
      var i := 0;
      while i < |draws| && env.keys(draws[i]) <= idBits
        invariant 0 <= i <= |draws|
        invariant forall j | 0 <= j < i :: Has(env, model, draws[j])
        decreases |draws| - i
      {
        i := i + 1;
      }
      if i == |draws| {
        return None, [];
      }
      assert !Has(env, model, draws[i]);
      idBits := idBits + env.keys(draws[i]);
      idCount := idCount + 1;
      model := InsertBits(env, model, draws[i]);
      return Some(draws[i]), draws[i + 1..];
    }

    method IDCount() returns (count: nat)
      requires Valid()
      ensures count == model.count
    {
      count := idCount;
    }

    method FindByName(name: string) returns (c: RegCluster?)
      requires Valid()
      ensures if name in model.byName then model.byName[name] < |clusters| && c == clusters[model.byName[name]] else c == null
      ensures c != null ==> c.View() == model.clusters[model.byName[name]]
    {
      c := if name in clustersByName then clustersByName[name] else null;
    }

    method FindByID(id: Bytes) returns (c: RegCluster?)
      requires Valid()
      ensures if id in model.byID then model.byID[id] < |clusters| && c == clusters[model.byID[id]] else c == null
      ensures c != null ==> c.View() == model.clusters[model.byID[id]]
    {
      c := if id in clustersByID then clustersByID[id] else null;
    }

    method AddCluster(cluster: RegCluster) returns (index: int)
      requires Valid()
      modifies this`clusters, this`clustersByName, this`clustersByID, this`listed, this`model
      ensures Valid() && index == Stores.AddCluster(old(model), cluster.View()).1
      ensures model == Stores.AddCluster(old(model), cluster.View()).0
      ensures clusters == if index < 0 then old(clusters) else old(clusters) + [cluster]
      ensures listed <= old(listed) + {cluster}
    {
      if cluster.name in clustersByName || cluster.id in clustersByID {
        return -1;
      }
      index := |clusters|;
      RepresentsMore(clusters, clustersByName, clustersByID, listed, model, cluster);
      List(cluster);
    }

    method List(cluster: RegCluster)
      modifies this`clusters, this`clustersByName, this`clustersByID, this`listed, this`model
      ensures clusters == old(clusters) + [cluster] && listed == old(listed) + {cluster}
      ensures clustersByName == old(clustersByName)[cluster.name := cluster]
      ensures clustersByID == old(clustersByID)[cluster.id := cluster]
      ensures model == Stores.AddCluster(old(model), cluster.View()).0
    {
      clusters := clusters + [cluster];
      clustersByName := clustersByName[cluster.name := cluster];
      clustersByID := clustersByID[cluster.id := cluster];
      listed, model := listed + {cluster}, Stores.AddCluster(model, cluster.View()).0;
    }

    /** A listed cluster's AddMember, seen from the registry that lists it. */
    method AddMemberTo(ghost i: nat, c: RegCluster, member: ClientInfo) returns (ok: bool)
      requires Valid() && i < |clusters| && clusters[i] == c
      modifies c, this`model
      ensures Valid() && i < |old(model).clusters| && c.View() == model.clusters[i]
      ensures ok <==> Stores.AddMember(old(model).clusters[i], member).Some?
      ensures model == if ok then WithMember(old(model), i, member) else old(model)
    {
      forall j | 0 <= j < |clusters| && j != i ensures clusters[j] != c {
        assert clusters[j].View() == model.clusters[j] && c.View() == model.clusters[i];
      }
      WithMemberIndexed(model, i, member);
      ok := c.AddMember(member);
      if ok {
        model := WithMember(model, i, member);
      }
    }
  }
}
