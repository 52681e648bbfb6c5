/** Deleting a Service's share of an NLB, and the NLB itself once nothing else is on it. */
module Withdrawal {
  import opened Prelude
  import opened LoadBalancerApi
  import opened UpdatePlan
  import opened UpdateTheorems
  import opened ServiceSpec
  import opened CloudApi
  import opened Controller

  predicate Matches(s: LBService, p: ServicePort) {
    s.content.port == p.port && EqualFold(s.content.protocol, p.protocol)
  }

  /** One call per matching port: two ports that differ in case alone would match twice. */
  function DeletesFor(n: string, s: LBService, ports: seq<ServicePort>): seq<Call> {
    if ports == [] then [] else
      (if Matches(s, ports[0]) then [DeleteService(n, s.id)] else []) + DeletesFor(n, s, ports[1..])
  }

  function Deletes(n: string, l: seq<LBService>, ports: seq<ServicePort>): seq<Call> {
    if l == [] then [] else DeletesFor(n, l[0], ports) + Deletes(n, l[1..], ports)
  }

  /** The NLB goes when the count of fetched services, less one per delete, comes to zero. */
  function LastCall(n: string, remaining: int, external: bool): seq<Call> {
    if remaining == 0 && !external then [DeleteNLB(n)] else []
  }

  function WithdrawPlan(n: string, l: seq<LBService>, m: Manifest, external: bool): seq<Call> {
    Deletes(n, l, m.ports) + LastCall(n, |l| - |Deletes(n, l, m.ports)|, external)
  }

  /** What a delete run may leave behind. */
  ghost predicate WithdrawRan(st: CloudState, m: Manifest, a: Annotations,
                              st': CloudState, issued: seq<Call>, ok: bool) {
    var id := Get(a, IdAnnotation, "");
    if id == "" || id !in st.nlbs then issued == [] && st' == st
    else
      || (!ok && issued == [] && st' == st)
      || exists l :: Lists(l, st.nlbs[id].services)
                     && Ran(st, WithdrawPlan(id, l, m, IsExternal(a)), st', issued, ok)
  }

  /** Deletes one fetched service, once per matching port, counting down as it goes. */
  method DeleteMatching(cloud: Cloud, n: string, s: LBService, ports: seq<ServicePort>, remaining: int)
    returns (r: Result<int, Error>, ghost issued: seq<Call>)
    requires cloud.st.Valid()
    modifies cloud
    ensures cloud.st.Valid() && cloud.log == old(cloud.log) + issued
    ensures Counted(old(cloud.faults), cloud.faults, r)
    ensures Ran(old(cloud.st), DeletesFor(n, s, ports), cloud.st, issued, r.Ok?)
    ensures r.Ok? ==> r.value == remaining - |issued|
    ensures r.Err? ==> Blameless(r.error, old(cloud.st), DeletesFor(n, s, ports))
  {
    ghost var st0 := cloud.st;
    issued := [];
    var left := remaining;
    for i := 0 to |ports|
      invariant cloud.st.Valid() && cloud.log == old(cloud.log) + issued
      invariant cloud.faults == old(cloud.faults)
      invariant cloud.st == ExecAll(st0, issued)
      invariant DeletesFor(n, s, ports) == issued + DeletesFor(n, s, ports[i..])
      invariant left == remaining - |issued|
    {
      assert ports[i..][0] == ports[i] && ports[i..][1..] == ports[i + 1..];
      if s.content.port == ports[i].port && EqualFold(s.content.protocol, ports[i].protocol) {
        ghost var call, todo := DeleteService(n, s.id), DeletesFor(n, s, ports[i + 1..]);
        assert DeletesFor(n, s, ports) == issued + [call] + todo;
        var deleted := cloud.Do(DeleteService(n, s.id));
        ConcatAssociative(old(cloud.log), issued, [call]);
        if deleted.Err? {
          RanFailed(st0, issued, call, todo, cloud.st);
          BlamelessFailure(deleted.error, st0, issued, call, todo);
          return Err(deleted.error), issued + [call];
        }
        ExecSnoc(st0, issued, call);
        issued := issued + [call];
        left := left - 1;
      }
    }
    r := Ok(left);
  }

  method DeleteAllMatching(cloud: Cloud, n: string, services: seq<LBService>, ports: seq<ServicePort>)
    returns (r: Result<int, Error>, ghost issued: seq<Call>)
    requires cloud.st.Valid()
    modifies cloud
    ensures cloud.st.Valid() && cloud.log == old(cloud.log) + issued
    ensures Counted(old(cloud.faults), cloud.faults, r)
    ensures Ran(old(cloud.st), Deletes(n, services, ports), cloud.st, issued, r.Ok?)
    ensures r.Ok? ==> r.value == |services| - |issued|
    ensures r.Err? ==> Blameless(r.error, old(cloud.st), Deletes(n, services, ports))
  {
    ghost var st0 := cloud.st;
    issued := [];
    var remaining: int := |services|;
    for i := 0 to |services|
      invariant cloud.st.Valid() && cloud.log == old(cloud.log) + issued
      invariant cloud.faults == old(cloud.faults)
      invariant cloud.st == ExecAll(st0, issued)
      invariant Deletes(n, services, ports) == issued + Deletes(n, services[i..], ports)
      invariant remaining == |services| - |issued|
    {
      assert services[i..][0] == services[i] && services[i..][1..] == services[i + 1..];
      ghost var todo := Deletes(n, services[i + 1..], ports);
      ghost var more;
      r, more := DeleteMatching(cloud, n, services[i], ports, remaining);
      RanRound(st0, issued, DeletesFor(n, services[i], ports), todo, cloud.st, more, r.Ok?);
      ConcatAssociative(old(cloud.log), issued, more);
      ConcatAssociative(issued, more, todo);
      issued := issued + more;
      if r.Err? { return; }
      remaining := r.value;
    }
    r := Ok(remaining);
  }

  method DeleteIfEmpty(cloud: Cloud, n: string, remaining: int, external: bool)
    returns (r: Result<(), Error>, ghost issued: seq<Call>)
    requires cloud.st.Valid()
    modifies cloud
    ensures cloud.st.Valid() && cloud.log == old(cloud.log) + issued
    ensures Counted(old(cloud.faults), cloud.faults, r)
    ensures Ran(old(cloud.st), LastCall(n, remaining, external), cloud.st, issued, r.Ok?)
    ensures r.Err? ==> r.error == Fault || (r.error == Rejected && n !in old(cloud.st).nlbs)
  {
    if remaining != 0 || external { return Ok(()), []; }
    ghost var st0 := cloud.st;
    issued := [DeleteNLB(n)];
    r := cloud.Do(DeleteNLB(n));
    RanOne(st0, DeleteNLB(n), cloud.st, r.Ok?);
  }

  /** Nothing but a fault stands in the way of a delete run: there is no such NLB, or the ports
      are distinct. */
  ghost predicate Deletable(st: CloudState, m: Manifest, a: Annotations) {
    var id := Get(a, IdAnnotation, "");
    id == "" || id !in st.nlbs || UniquePorts(m)
  }

  method EnsureLoadBalancerDeleted(cloud: Cloud, service: Service)
    returns (r: Result<(), Error>, ghost issued: seq<Call>)
    requires cloud.st.Valid()
    modifies cloud
    ensures cloud.st.Valid() && cloud.log == old(cloud.log) + issued
    ensures Counted(old(cloud.faults), cloud.faults, r)
    ensures WithdrawRan(old(cloud.st), service.manifest, service.annotations, cloud.st, issued, r.Ok?)
    ensures r.Err? ==> r.error == Fault || (r.error == Rejected && !UniquePorts(service.manifest))
    ensures cloud.faults == old(cloud.faults) && Deletable(old(cloud.st), service.manifest, service.annotations) ==> r.Ok?
    ensures Get(service.annotations, IdAnnotation, "") == "" ==> r.Ok?
  {
    issued := [];
    ghost var st0 := cloud.st;
    var ports, external := service.manifest.ports, IsExternal(service.annotations);
    var id := Get(service.annotations, IdAnnotation, "");
    if id == "" { return Ok(()), []; }
    var fetched := cloud.GetLoadBalancer(id);
    if fetched.Err? {
      return if fetched.error == NotFound then Ok(()) else Err(fetched.error), [];
    }
    var l := fetched.value.services;
    var remaining;
    remaining, issued := DeleteAllMatching(cloud, id, l, ports);
    ghost var deletes := Deletes(id, l, ports);
    ghost var last := LastCall(id, |l| - |deletes|, external);
    if UniquePorts(service.manifest) { WithdrawAdmissible(st0, id, l, service.manifest); }
    if remaining.Err? {
      RanPrefix(st0, deletes, last, cloud.st, issued);
      return Err(remaining.error), issued;
    }
    ghost var st1 := cloud.st;
    ghost var more;
    r, more := DeleteIfEmpty(cloud, id, remaining.value, external);
    RanThen(st0, deletes, st1, last, cloud.st, more, r.Ok?);
    ConcatAssociative(old(cloud.log), issued, more);
    issued := issued + more;
  }

  // ----- What a delete run promises ---------------------------------------------------------

  /** The key belongs to one of the ports, protocols read without case. */
  predicate Owned(k: Key, keys: set<Key>) {
    Key(k.port, Lower(k.protocol)) in keys
  }

  lemma {:induction false} MatchesOnce(n: string, s: LBService, m: Manifest, ports: seq<ServicePort>)
    requires UniquePorts(m) && ports <= m.ports
    ensures var rest := m.ports[|ports|..];
            && (DeletesFor(n, s, rest) == [] || DeletesFor(n, s, rest) == [DeleteService(n, s.id)])
            && (DeletesFor(n, s, rest) == [] <==>
                  forall j | |ports| <= j < |m.ports| :: PortKey(m.ports[j]) != Key(s.content.port, Lower(s.content.protocol)))
    decreases |m.ports| - |ports|
  {
    var i := |ports|;
    if i < |m.ports| {
      MatchesOnce(n, s, m, m.ports[..i + 1]);
      assert m.ports[i..][0] == m.ports[i] && m.ports[i..][1..] == m.ports[i + 1..];
      if Matches(s, m.ports[i]) {
        assert PortKey(m.ports[i]) == Key(s.content.port, Lower(s.content.protocol));
      }
    }
  }

  /** With distinct ports, each fetched service is deleted once if it is owned, and never else. */
  lemma DeletesForExact(n: string, s: LBService, m: Manifest)
    requires UniquePorts(m)
    ensures DeletesFor(n, s, m.ports) ==
            if Owned(s.content.ServiceKey(), PortKeys(m)) then [DeleteService(n, s.id)] else []
  {
    MatchesOnce(n, s, m, []);
    assert m.ports[0..] == m.ports;
  }

  /** The owned services are what pruning removes when nothing owned is wanted. */
  lemma {:induction false} DeletesArePrunes(n: string, l: seq<LBService>, m: Manifest, keep: set<Key>)
    requires UniquePorts(m)
    requires forall i | 0 <= i < |l| ::
               l[i].content.ServiceKey() in keep <==> !Owned(l[i].content.ServiceKey(), PortKeys(m))
    ensures Deletes(n, l, m.ports) == PrunePlan(n, l, keep)
    ensures |Deletes(n, l, m.ports)| <= |l|
    ensures |Deletes(n, l, m.ports)| == |l| <==> forall i | 0 <= i < |l| :: Owned(l[i].content.ServiceKey(), PortKeys(m))
    decreases |l|
  {
    if l != [] {
      DeletesForExact(n, l[0], m);
      DeletesArePrunes(n, l[1..], m, keep);
      assert forall i | 1 <= i < |l| :: l[i] == l[1..][i - 1];
    }
  }

  ghost function Unowned(s: Services, keys: set<Key>): Services {
    map k | k in s && !Owned(k, keys) :: s[k]
  }

  /** Pruning spares as many services as there are wanted keys listed. */
  lemma {:induction false} PruneCount(n: string, s: Services, l: seq<LBService>, keep: set<Key>)
    requires Enumerates(l, s)
    ensures |l| - |PrunePlan(n, l, keep)| == |keep * ListedKeys(l)|
    decreases |l|
  {
    if l == [] {
      assert keep * ListedKeys(l) == {};
    } else {
      var k0 := l[0].content.ServiceKey();
      PruneCount(n, s, l[1..], keep);
      ListedKeysTail(l);
      assert k0 !in ListedKeys(l[1..]);
      OneMoreListed(keep, ListedKeys(l[1..]), k0);
    }
  }

  lemma OneMoreListed(keep: set<Key>, listed: set<Key>, k: Key)
    requires k !in listed
    ensures |keep * ({k} + listed)| == |keep * listed| + if k in keep then 1 else 0
  {
    if k in keep {
      assert keep * ({k} + listed) == {k} + keep * listed;
    } else {
      assert keep * ({k} + listed) == keep * listed;
    }
  }

  lemma PruneEffect(n: string, nlb: NLB, l: seq<LBService>, keep: set<Key>)
    requires nlb.WellFormed() && Lists(l, nlb.services) && keep <= nlb.services.Keys
    ensures
      var plan := PrunePlan(n, l, keep);
      && AllAdmitted(nlb, plan)
      && RunOn(nlb, plan) == nlb.(services := Restricted(nlb.services, keep))
      && (forall c | c in plan :: c.DeleteService? && c.nlb == n)
      && |l| - |plan| == |keep|
  {
    PrunePhase(n, nlb, l, keep);
    PrunedListed(nlb.services, ListedKeys(l), keep);
    PruneCalls(n, nlb.services, l, keep);
    PruneCount(n, nlb.services, l, keep);
    assert keep * ListedKeys(l) == keep;
  }

  lemma DeletesEffect(n: string, nlb: NLB, l: seq<LBService>, m: Manifest)
    requires nlb.WellFormed() && Lists(l, nlb.services) && UniquePorts(m)
    ensures
      var deletes, left := Deletes(n, l, m.ports), Unowned(nlb.services, PortKeys(m));
      && AllAdmitted(nlb, deletes)
      && RunOn(nlb, deletes) == nlb.(services := left)
      && (forall c | c in deletes :: c.DeleteService? && c.nlb == n)
      && |l| - |deletes| == |left.Keys|
  {
    var left := Unowned(nlb.services, PortKeys(m));
    DeletesArePrunes(n, l, m, left.Keys);
    PruneEffect(n, nlb, l, left.Keys);
    assert Restricted(nlb.services, left.Keys) == left;
  }

  /** Deletion accounting: the deletes are admitted one by one and leave exactly the unowned
      services, the countdown arrives at the number of these, and the NLB itself is deleted
      exactly when it is not external and every fetched service belonged to a port. */
  lemma DeletionAccounting(n: string, nlb: NLB, l: seq<LBService>, m: Manifest, external: bool)
    requires nlb.WellFormed() && Lists(l, nlb.services) && UniquePorts(m)
    ensures
      var deletes, left := Deletes(n, l, m.ports), Unowned(nlb.services, PortKeys(m));
      && AllAdmitted(nlb, deletes)
      && RunOn(nlb, deletes).services == left
      && |l| - |deletes| == |left.Keys|
      && (DeleteNLB(n) in WithdrawPlan(n, l, m, external) <==> !external && left.Keys == {})
      && (left.Keys == {} <==> forall k | k in nlb.services :: Owned(k, PortKeys(m)))
  {
    DeletesEffect(n, nlb, l, m);
    var deletes, left := Deletes(n, l, m.ports), Unowned(nlb.services, PortKeys(m)).Keys;
    assert DeleteNLB(n) !in deletes;
    EmptyWhenAllOwned(nlb.services, PortKeys(m));
  }

  lemma EmptyWhenAllOwned(s: Services, keys: set<Key>)
    ensures Unowned(s, keys).Keys == {} <==> forall k | k in s :: Owned(k, keys)
  {
    assert forall k | k in s && !Owned(k, keys) :: k in Unowned(s, keys).Keys;
  }

  lemma WithdrawAdmissible(st: CloudState, n: string, l: seq<LBService>, m: Manifest)
    requires st.Valid() && n in st.nlbs && Lists(l, st.nlbs[n].services) && UniquePorts(m)
    ensures AllAdmissible(st, Deletes(n, l, m.ports))
    ensures n in ExecAll(st, Deletes(n, l, m.ports)).nlbs
  {
    var deletes := Deletes(n, l, m.ports);
    DeletesEffect(n, st.nlbs[n], l, m);
    forall i | 0 <= i < |deletes| ensures deletes[i].StaysOn(n) { assert deletes[i] in deletes; }
    ExecOnOne(st, n, deletes);
  }
}
