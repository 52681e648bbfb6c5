/** How the controller finds the instance pool of a Service. */
module PoolInference {
  import opened Prelude
  import opened ServiceSpec

  datatype Manager = Manager(kind: string, id: string)

  predicate InPool(m: Option<Manager>) {
    m.Some? && m.value.kind == "instance-pool"
  }

  /** The scan over the managers of the nodes' instances, `found` being the pool seen so far. */
  function Scan(ms: seq<Option<Manager>>, found: string): Result<string, Error> {
    if ms == [] then (if found == "" then Err(NoPool) else Ok(found))
    else if !InPool(ms[0]) then Scan(ms[1..], found)
    else if found != "" && ms[0].value.id != found then Err(SeveralPools)
    else Scan(ms[1..], ms[0].value.id)
  }

  /** The pools that manage at least one node. */
  function Pools(ms: seq<Option<Manager>>): set<string> {
    set m | m in ms && InPool(m) :: m.value.id
  }

  /** The pool has an ID: an empty one looks to the scan like no pool at all. */
  predicate Named(m: Option<Manager>) {
    InPool(m) && m.value.id != ""
  }

  /** No manager with an empty pool ID comes after one with another pool ID. */
  ghost predicate EmptyFirst(ms: seq<Option<Manager>>) {
    forall i, j | 0 <= i < j < |ms| && Named(ms[i]) && InPool(ms[j]) :: Named(ms[j])
  }

  lemma {:induction false} ScanFrom(ms: seq<Option<Manager>>, found: string)
    requires found != ""
    ensures Scan(ms, found) == if Pools(ms) <= {found} then Ok(found) else Err(SeveralPools)
    decreases |ms|
  {
    if ms != [] {
      PoolsTail(ms);
      if InPool(ms[0]) {
        if ms[0].value.id == found { ScanFrom(ms[1..], found); }
      } else {
        ScanFrom(ms[1..], found);
      }
    }
  }

  lemma PoolsTail(ms: seq<Option<Manager>>)
    requires ms != []
    ensures Pools(ms) == (if InPool(ms[0]) then {ms[0].value.id} else {}) + Pools(ms[1..])
  {
    assert ms == [ms[0]] + ms[1..];
    assert forall m :: m in ms <==> m == ms[0] || m in ms[1..];
  }

  lemma EmptyFirstTail(ms: seq<Option<Manager>>)
    requires ms != []
    ensures EmptyFirst(ms) <==> EmptyFirst(ms[1..]) && (Named(ms[0]) ==> "" !in Pools(ms[1..]))
  {
    var rest := ms[1..];
    assert forall i | 0 <= i < |rest| :: rest[i] == ms[i + 1];
    if EmptyFirst(ms) && Named(ms[0]) {
      forall m | m in rest && InPool(m) ensures m.value.id != "" {
        var j :| 0 <= j < |rest| && rest[j] == m;
        assert ms[j + 1] == m;
      }
    }
    if EmptyFirst(rest) && (Named(ms[0]) ==> "" !in Pools(rest)) {
      forall i, j | 0 <= i < j < |ms| && Named(ms[i]) && InPool(ms[j]) ensures Named(ms[j]) {
        assert ms[j] == rest[j - 1] && rest[j - 1] in rest;
        if i > 0 { assert ms[i] == rest[i - 1]; }
      }
    }
  }

  /** The scan returns pool P exactly when P is the one pool with an ID that manages a node, and
      no node of a pool without an ID comes after one of P. */
  lemma {:induction false} ScanDecides(ms: seq<Option<Manager>>)
    ensures forall p :: Scan(ms, "") == Ok(p) <==> Pools(ms) - {""} == {p} && EmptyFirst(ms)
    ensures Scan(ms, "") == Err(NoPool) <==> Pools(ms) <= {""}
    decreases |ms|
  {
    if ms != [] {
      PoolsTail(ms);
      EmptyFirstTail(ms);
      var rest := Pools(ms[1..]);
      if Named(ms[0]) {
        var id := ms[0].value.id;
        ScanFrom(ms[1..], id);
        assert Pools(ms) - {""} == {id} + (rest - {""});
        assert rest <= {id} <==> {id} + (rest - {""}) == {id} && "" !in rest;
        assert forall p :: {id} + (rest - {""}) == {p} ==> p == id by {
          forall p | {id} + (rest - {""}) == {p} ensures p == id { assert id in {p}; }
        }
      } else {
        ScanDecides(ms[1..]);
        assert Pools(ms) - {""} == rest - {""};
      }
    }
  }

  /** One pool has an ID, another has none, and both manage nodes. */
  ghost predicate OneBesideEmpty(ms: seq<Option<Manager>>) {
    "" in Pools(ms) && exists p :: Pools(ms) - {""} == {p}
  }

  ghost predicate SamePoolNodes(ms: seq<Option<Manager>>, ms': seq<Option<Manager>>) {
    forall m | InPool(m) :: m in ms <==> m in ms'
  }

  /** Order, repetition and standalone nodes do not matter, but for one case. */
  lemma ScanInvariant(ms: seq<Option<Manager>>, ms': seq<Option<Manager>>)
    requires SamePoolNodes(ms, ms') && !OneBesideEmpty(ms)
    ensures Scan(ms, "") == Scan(ms', "")
  {
    assert Pools(ms) == Pools(ms');
    ScanDecides(ms);
    ScanDecides(ms');
    ScanErrs(ms, "");
    ScanErrs(ms', "");
    if "" !in Pools(ms) {
      NoEmptyIsFirst(ms);
      NoEmptyIsFirst(ms');
    } else {
      assert forall p :: Pools(ms) - {""} != {p};
    }
  }

  lemma NoEmptyIsFirst(ms: seq<Option<Manager>>)
    requires "" !in Pools(ms)
    ensures EmptyFirst(ms)
  {
    forall j | 0 <= j < |ms| && InPool(ms[j]) ensures Named(ms[j]) { assert ms[j] in ms; }
  }

  /** The managers of pools with an ID, or all the others, in order. */
  function Those(ms: seq<Option<Manager>>, named: bool): seq<Option<Manager>> {
    if ms == [] then []
    else (if Named(ms[0]) == named then [ms[0]] else []) + Those(ms[1..], named)
  }

  lemma {:induction false} ThoseSplit(ms: seq<Option<Manager>>)
    ensures multiset(Those(ms, false) + Those(ms, true)) == multiset(ms)
    ensures multiset(Those(ms, true) + Those(ms, false)) == multiset(ms)
    decreases |ms|
  {
    if ms != [] {
      ThoseSplit(ms[1..]);
      assert ms == [ms[0]] + ms[1..];
    }
  }

  lemma {:induction false} ThoseMembers(ms: seq<Option<Manager>>, named: bool)
    ensures forall m :: m in Those(ms, named) <==> m in ms && Named(m) == named
    decreases |ms|
  {
    if ms != [] {
      ThoseMembers(ms[1..], named);
      assert ms == [ms[0]] + ms[1..];
    }
  }

  /** Pools without an ID first, or last: the former order suits the scan, the latter does not. */
  lemma TwoOrders(none: seq<Option<Manager>>, some: seq<Option<Manager>>)
    requires (forall m | m in none :: !Named(m)) && forall m | m in some :: Named(m)
    ensures EmptyFirst(none + some)
    ensures (exists b :: b in none && InPool(b)) && some != [] ==> !EmptyFirst(some + none)
  {
    if b :| b in none && InPool(b) {
      var j :| 0 <= j < |none| && none[j] == b;
      if some != [] { assert (some + none)[0] == some[0] && (some + none)[|some| + j] == b; }
    }
  }

  lemma Orders(ms: seq<Option<Manager>>)
    ensures EmptyFirst(Those(ms, false) + Those(ms, true))
    ensures OneBesideEmpty(ms) ==> !EmptyFirst(Those(ms, true) + Those(ms, false))
  {
    ThoseMembers(ms, false);
    ThoseMembers(ms, true);
    if OneBesideEmpty(ms) {
      var p :| Pools(ms) - {""} == {p};
      assert p in Pools(ms) && p != "";
      var a :| a in ms && InPool(a) && a.value.id == p;
      var b :| b in ms && InPool(b) && b.value.id == "";
      assert a in Those(ms, true) && b in Those(ms, false);
    }
    TwoOrders(Those(ms, false), Those(ms, true));
  }

  /** In that case the order decides. */
  lemma OneBesideEmptyVaries(ms: seq<Option<Manager>>)
    returns (good: seq<Option<Manager>>, bad: seq<Option<Manager>>)
    requires OneBesideEmpty(ms)
    ensures multiset(good) == multiset(ms) == multiset(bad)
    ensures Scan(good, "").Ok? && Scan(bad, "").Err?
  {
    good, bad := Those(ms, false) + Those(ms, true), Those(ms, true) + Those(ms, false);
    ThoseSplit(ms);
    Orders(ms);
    SameMembers(good, ms);
    SameMembers(bad, ms);
    ScanDecides(good);
    ScanDecides(bad);
  }

  lemma SameMembers(ms: seq<Option<Manager>>, ms': seq<Option<Manager>>)
    requires multiset(ms) == multiset(ms')
    ensures SamePoolNodes(ms, ms') && Pools(ms) == Pools(ms')
  {
    assert forall m :: m in ms <==> m in multiset(ms);
    assert forall m :: m in ms' <==> m in multiset(ms');
  }

  /** The result is the same for every order of the nodes exactly when it is not the case that
      nodes of one pool with an ID stand beside nodes of a pool without one. */
  lemma OrderMattersExactly(ms: seq<Option<Manager>>)
    ensures (forall ms' | multiset(ms') == multiset(ms) :: Scan(ms', "") == Scan(ms, "")) <==> !OneBesideEmpty(ms)
  {
    if OneBesideEmpty(ms) {
      var good, bad := OneBesideEmptyVaries(ms);
    } else {
      forall ms' | multiset(ms') == multiset(ms) ensures Scan(ms', "") == Scan(ms, "") {
        SameMembers(ms, ms');
        ScanInvariant(ms, ms');
      }
    }
  }

  lemma {:induction false} ScanErrs(ms: seq<Option<Manager>>, found: string)
    ensures Scan(ms, found).Err? ==> Scan(ms, found).error == NoPool || Scan(ms, found).error == SeveralPools
    decreases |ms|
  {
    if ms != [] {
      ScanErrs(ms[1..], found);
      if InPool(ms[0]) { ScanErrs(ms[1..], ms[0].value.id); }
    }
  }

  /** Two nodes for which the order matters. */
  lemma EmptyPoolIdOrderMatters()
    ensures var a, b := Some(Manager("instance-pool", "")), Some(Manager("instance-pool", "p"));
            Scan([a, b], "") == Ok("p") && Scan([b, a], "") == Err(SeveralPools)
  {
    var a, b := Some(Manager("instance-pool", "")), Some(Manager("instance-pool", "p"));
    assert [a, b][1..] == [b] && [b, a][1..] == [a];
    assert Scan([b], "") == Ok("p") by { assert [b][1..] == []; }
    assert Scan([a], "p") == Err(SeveralPools);
  }

  /** Once several pools are seen, further nodes change nothing. */
  lemma {:induction false} ScanStops(ms: seq<Option<Manager>>, more: seq<Option<Manager>>, found: string)
    requires Scan(ms, found) == Err(SeveralPools)
    ensures Scan(ms + more, found) == Err(SeveralPools)
    decreases |ms|
  {
    assert (ms + more)[1..] == ms[1..] + more;
    if !InPool(ms[0]) {
      ScanStops(ms[1..], more, found);
    } else if found == "" || ms[0].value.id == found {
      ScanStops(ms[1..], more, ms[0].value.id);
    }
  }

  /** One more node continues the scan from where it stood. */
  lemma {:induction false} ScanOneMore(ms: seq<Option<Manager>>, m: Option<Manager>, found: string)
    requires Scan(ms, found) != Err(SeveralPools)
    ensures Scan(ms + [m], found) == Scan([m], if Scan(ms, found).Ok? then Scan(ms, found).value else "")
    decreases |ms|
  {
    ScanErrs(ms, found);
    if ms == [] {
      assert ms + [m] == [m];
    } else {
      assert (ms + [m])[1..] == ms[1..] + [m];
      ScanOneMore(ms[1..], m, if InPool(ms[0]) then ms[0].value.id else found);
    }
  }

  datatype Nodepool = Nodepool(name: string, instancePool: Option<string>)
  datatype Cluster = Cluster(id: string, name: string, nodepools: seq<Nodepool>)

  /** `pool` is the instance pool of the first nodepool of that name, without case, that has one. */
  ghost predicate FirstNodepool(pools: seq<Nodepool>, name: string, pool: string) {
    exists j :: 0 <= j < |pools| && EqualFold(pools[j].name, name) && pools[j].instancePool == Some(pool)
                && forall i | 0 <= i < j :: !(EqualFold(pools[i].name, name) && pools[i].instancePool.Some?)
  }

  predicate Called(c: Cluster, nameOrId: string) {
    c.name == nameOrId || c.id == nameOrId
  }

  /** The cluster is the only one listed with that name or ID. */
  ghost predicate OnlyCluster(cs: seq<Cluster>, nameOrId: string, c: Cluster) {
    exists i :: 0 <= i < |cs| && cs[i] == c && Called(cs[i], nameOrId)
                && forall j | 0 <= j < |cs| && Called(cs[j], nameOrId) :: j == i
  }

  /** The pool of the nodepool of that name in the cluster of that name or ID. */
  ghost predicate NamedPool(cs: seq<Cluster>, cluster: string, nodepool: string, pool: string) {
    pool != "" && exists c :: OnlyCluster(cs, cluster, c) && FirstNodepool(c.nodepools, nodepool, pool)
  }

  /** The clusters and instances the API knows about. */
  class Directory {
    const clusters: seq<Cluster>
    const managers: map<string, Option<Manager>>
    var faults: nat             // how many look-ups failed

    predicate Known(nodes: seq<string>) {
      forall i | 0 <= i < |nodes| :: nodes[i] in managers
    }

    function ManagersOf(nodes: seq<string>): seq<Option<Manager>>
      requires Known(nodes)
    {
      seq(|nodes|, i requires 0 <= i < |nodes| => managers[nodes[i]])
    }

    method GetManager(uuid: string) returns (r: Result<Option<Manager>, Error>)
      modifies this
      ensures r.Ok? ==> uuid in managers && r.value == managers[uuid]
      ensures r.Err? ==> r.error == Fault || (r.error == NotFound && uuid !in managers)
      ensures Counted(old(faults), faults, r)
    {
      var available: bool := *;
      if !available {
        faults := faults + 1;
        return Err(Fault);
      }
      return if uuid in managers then Ok(managers[uuid]) else Err(NotFound);
    }

    method FindCluster(nameOrId: string) returns (r: Result<Cluster, Error>)
      modifies this
      ensures r.Ok? ==> OnlyCluster(clusters, nameOrId, r.value)
      ensures r.Err? ==> r.error == Fault || (r.error == ClusterUnknown && forall c :: !OnlyCluster(clusters, nameOrId, c))
      ensures Counted(old(faults), faults, r)
    {
      var available: bool := *;
      if !available {
        faults := faults + 1;
        return Err(Fault);
      }
      var found: Option<nat> := None;
      for i := 0 to |clusters|
        invariant found.None? ==> forall j | 0 <= j < i :: !Called(clusters[j], nameOrId)
        invariant found.Some? ==> found.value < i && Called(clusters[found.value], nameOrId)
                                  && forall j | 0 <= j < i && Called(clusters[j], nameOrId) :: j == found.value
      {
        if Called(clusters[i], nameOrId) {
          if found.Some? { return Err(ClusterUnknown); }
          found := Some(i);
        }
      }
      return if found.Some? then Ok(clusters[found.value]) else Err(ClusterUnknown);
    }

    /** The pool inferred from the nodes, given by their system UUIDs. */
    method InferPool(nodes: seq<string>) returns (r: Result<string, Error>)
      modifies this
      ensures r.Ok? || r == Err(NoPool) ==> Known(nodes) && r == Scan(ManagersOf(nodes), "")
      ensures r == Err(SeveralPools) && Known(nodes) ==> Scan(ManagersOf(nodes), "") == r
      ensures r == Err(NotFound) ==> !Known(nodes)
      ensures r.Err? ==> r.error in {NoPool, SeveralPools, Fault, NotFound}
      ensures r.Ok? ==> r.value != ""
      ensures Counted(old(faults), faults, r)
    {
      var pool := "";
      ghost var seen := [];
      for i := 0 to |nodes|
        invariant faults == old(faults)
        invariant Known(nodes[..i]) && seen == ManagersOf(nodes[..i])
        invariant Scan(seen, "") == if pool == "" then Err(NoPool) else Ok(pool)
      {
        var got := GetManager(nodes[i]);
        if got.Err? { return Err(got.error); }
        var m := got.value;
        ScanOneMore(seen, m, "");
        assert [m][1..] == [];
        seen := seen + [m];
        assert nodes[..i + 1] == nodes[..i] + [nodes[i]];
        assert seen == ManagersOf(nodes[..i + 1]);
        if !InPool(m) { continue; }
        if pool != "" && m.value.id != pool {
          if Known(nodes) {
            ScanStops(seen, ManagersOf(nodes)[i + 1..], "");
            assert seen + ManagersOf(nodes)[i + 1..] == ManagersOf(nodes);
          }
          return Err(SeveralPools);
        }
        pool := m.value.id;
      }
      assert nodes[..|nodes|] == nodes;
      if pool == "" { return Err(NoPool); }
      return Ok(pool);
    }

    /** The pool of the named nodepool of the named cluster; the search stops at the first. */
    method NodepoolPool(cluster: string, nodepool: string) returns (r: Result<string, Error>)
      modifies this
      ensures r.Ok? ==> NamedPool(clusters, cluster, nodepool, r.value)
      ensures r.Err? ==> r.error in {Fault, ClusterUnknown, NodepoolUnknown}
      ensures r.Err? && r.error != Fault ==> forall pool :: !NamedPool(clusters, cluster, nodepool, pool)
      ensures Counted(old(faults), faults, r)
    {
      var found := FindCluster(cluster);
      if found.Err? { return Err(found.error); }
      var pools := found.value.nodepools;
      var pool := "";
      ghost var at := |pools|;
      for i := 0 to |pools|
        invariant pool == "" && at == |pools|
        invariant forall h | 0 <= h < i :: !(EqualFold(pools[h].name, nodepool) && pools[h].instancePool.Some?)
      {
        if EqualFold(pools[i].name, nodepool) && pools[i].instancePool.Some? {
          pool := pools[i].instancePool.value;
          at := i;
          break;
        }
      }
      if pool == "" {
        NoNamedPool(clusters, cluster, nodepool, found.value, at);
        return Err(NodepoolUnknown);
      }
      return Ok(pool);
    }
  }

  /** Without a nodepool of that name that has a pool, or when the first such pool has an empty
      ID, there is no pool to name. */
  lemma NoNamedPool(cs: seq<Cluster>, cluster: string, nodepool: string, c: Cluster, at: nat)
    requires OnlyCluster(cs, cluster, c)
    requires at <= |c.nodepools|
    requires forall h | 0 <= h < at ::
               !(EqualFold(c.nodepools[h].name, nodepool) && c.nodepools[h].instancePool.Some?)
    requires at < |c.nodepools| ==>
               EqualFold(c.nodepools[at].name, nodepool) && c.nodepools[at].instancePool == Some("")
    ensures forall pool :: !NamedPool(cs, cluster, nodepool, pool)
  {
    forall pool, c' | OnlyCluster(cs, cluster, c') && FirstNodepool(c'.nodepools, nodepool, pool) ensures pool == "" {
      assert c' == c;
      if at < |c.nodepools| {
        assert FirstNodepool(c.nodepools, nodepool, "");
        OneFirstNodepool(c.nodepools, nodepool, pool, "");
      }
    }
  }

  lemma OneFirstNodepool(pools: seq<Nodepool>, name: string, p: string, q: string)
    requires FirstNodepool(pools, name, p) && FirstNodepool(pools, name, q)
    ensures p == q
  {
    var i :| 0 <= i < |pools| && EqualFold(pools[i].name, name) && pools[i].instancePool == Some(p)
             && forall h | 0 <= h < i :: !(EqualFold(pools[h].name, name) && pools[h].instancePool.Some?);
    var j :| 0 <= j < |pools| && EqualFold(pools[j].name, name) && pools[j].instancePool == Some(q)
             && forall h | 0 <= h < j :: !(EqualFold(pools[h].name, name) && pools[h].instancePool.Some?);
    assert i <= j && j <= i;
  }
}
