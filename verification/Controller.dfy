/** The load-balancer controller: reconciling, ensuring and deleting the NLB of a Service. */
module Controller {
  import opened Prelude
  import opened LoadBalancerApi
  import opened UpdatePlan
  import opened ServiceSpec
  import opened CloudApi
  import opened UpdateTheorems

  /** The plan does not depend on services outside the desired keys. */
  lemma {:induction false} ServicesPlanOfKept(n: string, s: Services, kept: Services, ds: seq<Content>)
    requires forall k | k in KeysOf(ds) :: Find(s, k) == Find(kept, k)
    ensures ServicesPlan(n, s, ds) == ServicesPlan(n, kept, ds)
    decreases |ds|
  {
    if ds != [] {
      KeysOfTail(ds);
      ServicesPlanOfKept(n, s, kept, ds[1..]);
    }
  }

  /** An error that is nobody's fault but the network's, unless the plan was inadmissible. */
  ghost predicate Blameless(e: Error, st: CloudState, plan: seq<Call>) {
    e == Fault || (e == Rejected && !AllAdmissible(st, plan))
  }

  lemma BlamelessFailure(e: Error, st: CloudState, done: seq<Call>, c: Call, rest: seq<Call>)
    requires e == Fault || (e == Rejected && !Admissible(ExecAll(st, done), c))
    ensures Blameless(e, st, done + [c] + rest)
  {
    if AllAdmissible(st, done + [c] + rest) { AdmissibleNext(st, done, c, rest); }
  }

  /** One round of the first loop for a service that is not kept. */
  method PruneService(cloud: Cloud, n: string, service: LBService, spec: Spec)
    returns (r: Result<(), Error>, ghost issued: seq<Call>)
    requires cloud.st.Valid() && service.content.ServiceKey() !in KeysOf(spec.services)
    modifies cloud
    ensures cloud.st.Valid() && cloud.log == old(cloud.log) + issued
    ensures Counted(old(cloud.faults), cloud.faults, r)
    ensures var round := PruneAll(n, [service], spec);
            && Ran(old(cloud.st), round, cloud.st, issued, r.Ok?)
            && (r.Err? ==> Blameless(r.error, old(cloud.st), round))
  {
    issued := [];
    PruneFirst(n, [service], spec);
    if spec.external { return Ok(()), []; }
    ghost var st0, call := cloud.st, DeleteService(n, service.id);
    issued := [call];
    r := cloud.Do(DeleteService(n, service.id));
    RanOne(st0, call, cloud.st, r.Ok?);
    if r.Err? { BlamelessOne(r.error, st0, call); }
  }

  lemma PruneFirst(n: string, l: seq<LBService>, spec: Spec)
    requires l != []
    ensures PruneAll(n, [l[0]], spec) == if spec.external then [] else PruneOne(n, l[0], KeysOf(spec.services))
    ensures PruneAll(n, l, spec) == PruneAll(n, [l[0]], spec) + PruneAll(n, l[1..], spec)
  {
    assert [l[0]][1..] == [] && PrunePlan(n, [], KeysOf(spec.services)) == [];
  }

  /** One round of the first loop. */
  method PruneNext(cloud: Cloud, n: string, current: LBService, spec: Spec, kept: Services)
    returns (r: Result<Services, Error>, ghost issued: seq<Call>)
    requires cloud.st.Valid()
    modifies cloud
    ensures cloud.st.Valid() && cloud.log == old(cloud.log) + issued
    ensures Counted(old(cloud.faults), cloud.faults, r)
    ensures var round := PruneAll(n, [current], spec);
            && Ran(old(cloud.st), round, cloud.st, issued, r.Ok?)
            && (r.Err? ==> Blameless(r.error, old(cloud.st), round))
    ensures var key := current.content.ServiceKey();
            r.Ok? ==> r.value == if key in KeysOf(spec.services) then kept[key := current] else kept
  {
    issued := [];
    var found := IsDesired(current.content.ServiceKey(), spec.services);
    if found {
      PruneFirst(n, [current], spec);
      return Ok(kept[current.content.ServiceKey() := current]), [];
    }
    var pruned;
    pruned, issued := PruneService(cloud, n, current, spec);
    return if pruned.Ok? then Ok(kept) else Err(pruned.error), issued;
  }

  /** First loop: remember the services to keep, delete the rest unless the NLB is external. */
  method PruneServices(cloud: Cloud, n: string, services: seq<LBService>, spec: Spec, ghost s: Services)
    returns (r: Result<Services, Error>, ghost issued: seq<Call>)
    requires cloud.st.Valid() && Lists(services, s)
    modifies cloud
    ensures cloud.st.Valid() && cloud.log == old(cloud.log) + issued
    ensures Counted(old(cloud.faults), cloud.faults, r)
    ensures var plan := PruneAll(n, services, spec);
            && Ran(old(cloud.st), plan, cloud.st, issued, r.Ok?)
            && (r.Err? ==> Blameless(r.error, old(cloud.st), plan))
    ensures r.Ok? ==> r.value == Restricted(s, KeysOf(spec.services))
  {
    ghost var st0, wanted := cloud.st, KeysOf(spec.services);
    issued := [];
    var kept: Services := map[];
    for i := 0 to |services|
      invariant cloud.st.Valid() && cloud.log == old(cloud.log) + issued
      invariant cloud.faults == old(cloud.faults)
      invariant cloud.st == ExecAll(st0, issued)
      invariant PruneAll(n, services, spec) == issued + PruneAll(n, services[i..], spec)
      invariant kept == Restricted(s, wanted * ListedKeys(services[..i]))
    {
      assert services[i..][0] == services[i] && services[i..][1..] == services[i + 1..];
      ghost var todo := PruneAll(n, services[i + 1..], spec);
      PruneFirst(n, services[i..], spec);
      KeptOneMore(services, s, i, wanted);
      ghost var more;
      r, more := PruneNext(cloud, n, services[i], spec, kept);
      RanRound(st0, issued, PruneAll(n, [services[i]], spec), todo, cloud.st, more, r.Ok?);
      ConcatAssociative(old(cloud.log), issued, more);
      ConcatAssociative(issued, more, todo);
      issued := issued + more;
      if r.Err? { return; }
      kept := r.value;
    }
    KeptAll(services, s, wanted);
    r := Ok(kept);
  }

  /** The search of the first loop for a desired service under the key. */
  method IsDesired(key: Key, ds: seq<Content>) returns (found: bool)
    ensures found <==> key in KeysOf(ds)
  {
    for j := 0 to |ds|
      invariant forall h | 0 <= h < j :: ds[h].ServiceKey() != key
    {
      if ds[j].ServiceKey() == key { return true; }
    }
    return false;
  }

  lemma KeptOneMore(l: seq<LBService>, s: Services, i: nat, wanted: set<Key>)
    requires Enumerates(l, s) && i < |l|
    ensures
      var k, kept := l[i].content.ServiceKey(), Restricted(s, wanted * ListedKeys(l[..i]));
      Restricted(s, wanted * ListedKeys(l[..i + 1])) == if k in wanted then kept[k := l[i]] else kept
  {
    ListedOneMore(l, i);
  }

  lemma KeptAll(l: seq<LBService>, s: Services, wanted: set<Key>)
    requires Lists(l, s)
    ensures Restricted(s, wanted * ListedKeys(l[..|l|])) == Restricted(s, wanted)
  {
    assert l[..|l|] == l;
  }

  lemma ListedOneMore(l: seq<LBService>, i: nat)
    requires i < |l|
    ensures ListedKeys(l[..i + 1]) == ListedKeys(l[..i]) + {l[i].content.ServiceKey()}
  {
    var a, b := l[..i], l[..i + 1];
    assert b == a + [l[i]];
    forall k ensures k in ListedKeys(b) <==> k in ListedKeys(a) || k == l[i].content.ServiceKey() {
      if k in ListedKeys(a) {
        var j :| 0 <= j < |a| && a[j].content.ServiceKey() == k;
        assert b[j] == a[j];
      }
      assert b[i] == l[i];
    }
  }

  /** Reads the NLB back and looks for the service that was just added, by its name; the empty
      name cannot be told from none. */
  method CheckAdded(cloud: Cloud, n: string, d: Content) returns (r: Result<(), Error>)
    requires cloud.st.Valid()
    requires n in cloud.st.nlbs ==> Holds(cloud.st.nlbs[n].services, d)
    modifies cloud`faults
    ensures Counted(old(cloud.faults), cloud.faults, r)
    ensures r.Ok? ==> d.name != ""
    ensures r.Err? ==> || r.error == Fault
                       || (r.error == NotFound && n !in cloud.st.nlbs)
                       || (r.error == ServiceNotVisible && d.name == "")
  {
    var read := cloud.GetLoadBalancer(n);
    if read.Err? { return Err(read.error); }
    var name, items := "", read.value.services;
    for i := 0 to |items|
      invariant name == d.name || (name == "" && forall j | 0 <= j < i :: items[j].content.name != d.name)
    {
      if items[i].content.name == d.name { name := items[i].content.name; }
    }
    if name == "" {
      HeldIsListed(items, cloud.st.nlbs[n].services, d);
      return Err(ServiceNotVisible);
    }
    r := Ok(());
  }

  ghost predicate Holds(s: Services, d: Content) {
    d.ServiceKey() in s && s[d.ServiceKey()].content == d
  }

  lemma HeldIsListed(l: seq<LBService>, s: Services, d: Content)
    requires Lists(l, s) && Holds(s, d)
    ensures exists i :: 0 <= i < |l| && l[i].content.name == d.name
  {
    assert d.ServiceKey() in ListedKeys(l);
    var i :| 0 <= i < |l| && l[i].content.ServiceKey() == d.ServiceKey();
    assert l[i] == s[d.ServiceKey()];
  }

  /** Adds a service and checks that it is there. A service without a name is added, and the
      check fails. */
  method AddAndVerify(cloud: Cloud, n: string, d: Content) returns (r: Result<(), Error>, ghost issued: seq<Call>)
    requires cloud.st.Valid()
    modifies cloud
    ensures cloud.st.Valid() && cloud.log == old(cloud.log) + issued
    ensures Counted(old(cloud.faults), cloud.faults, r)
    ensures Ran(old(cloud.st), [AddService(n, d)], cloud.st, issued, r.Ok?)
    ensures r.Ok? ==> d.name != ""
    ensures r.Err? ==> Blameless(r.error, old(cloud.st), [AddService(n, d)])
                       || (r.error == ServiceNotVisible && d.name == "")
  {
    ghost var st0, call := cloud.st, AddService(n, d);
    issued := [call];
    r := cloud.Do(AddService(n, d));
    RanOne(st0, call, cloud.st, r.Ok?);
    if r.Err? {
      BlamelessOne(r.error, st0, call);
      return;
    }
    r := CheckAdded(cloud, n, d);
  }

  /** A single call. */
  lemma RanOne(st: CloudState, c: Call, st': CloudState, ok: bool)
    requires if ok then st' == Effect(st, c) else st' == st || st' == Effect(st, c)
    ensures Ran(st, [c], st', [c], ok)
    ensures ok ==> Ran(st, [c], st', [c], false)
  {
    ExecSnoc(st, [], c);
    assert [] + [c] == [c] && [c][..0] == [];
  }

  lemma BlamelessOne(e: Error, st: CloudState, c: Call)
    requires e == Fault || (e == Rejected && !Admissible(st, c))
    ensures Blameless(e, st, [c])
  {}

  /** The service is to be added, and has no name. */
  predicate AddsUnnamed(current: Option<LBService>, d: Content) {
    d.name == "" && (current.Some? ==> current.value.content.PoolId() != d.PoolId())
  }

  /** The services that the second loop adds include one without a name. */
  ghost predicate Unnamed(s: Services, ds: seq<Content>) {
    exists d :: d in ds && AddsUnnamed(Find(s, d.ServiceKey()), d)
  }

  /** A default name is never empty, so a service lacks a name exactly when the Service has one
      port and an empty name annotation; it is to be added unless it is kept with its pool. */
  lemma UnnamedExactly(m: Manifest, a: Annotations, parsers: Parsers, s: Services)
    requires Build(m, a, parsers).Ok?
    ensures var ds := Build(m, a, parsers).value.services;
            Unnamed(s, ds) <==>
              && |m.ports| == 1 && ServiceNameAnnotation in a && a[ServiceNameAnnotation] == ""
              && (PortKey(m.ports[0]) in s ==> s[PortKey(m.ports[0])].content.PoolId() != Get(a, PoolAnnotation, ""))
  {
    var ds := Build(m, a, parsers).value.services;
    forall i | 0 <= i < |ds| ensures ds[i] == ContentFor(m, a, parsers, m.ports[i]) && PortName(m.uid, m.ports[i]) != "" {}
    if |m.ports| == 1 {
      assert ds[0].ServiceKey() == PortKey(m.ports[0]) && ds[0].PoolId() == Get(a, PoolAnnotation, "");
      assert forall d :: d in ds <==> d == ds[0];
    } else {
      forall d | d in ds ensures d.name != "" {
        var i :| 0 <= i < |ds| && ds[i] == d;
      }
    }
  }

  /** There is such a Service, for any UID and any TCP port. */
  lemma UnnamedWitness(uid: string, port: int, nodePort: int) returns (m: Manifest, a: Annotations, parsers: Parsers)
    ensures Build(m, a, parsers).Ok? && UniquePorts(m) && Unnamed(map[], Build(m, a, parsers).value.services)
  {
    m := Manifest(uid, [ServicePort(port, nodePort, "TCP")], "Cluster", 0);
    a := map[ServiceNameAnnotation := ""];
    parsers := Parsers(_ => Some(10), _ => Some(1));
    assert Get(a, HcPortAnnotation, "") == "" by { OwnAnnotations(); }
    UnnamedExactly(m, a, parsers, map[]);
  }

  /** One round of the second loop: add, recreate or update one desired service. */
  method ReconcileService(cloud: Cloud, n: string, current: Option<LBService>, d: Content)
    returns (r: Result<(), Error>, ghost issued: seq<Call>)
    requires cloud.st.Valid()
    modifies cloud
    ensures cloud.st.Valid() && cloud.log == old(cloud.log) + issued
    ensures Counted(old(cloud.faults), cloud.faults, r)
    ensures Ran(old(cloud.st), ServiceStep(n, current, d), cloud.st, issued, r.Ok?)
    ensures r.Ok? ==> !AddsUnnamed(current, d)
    ensures r.Err? ==> Blameless(r.error, old(cloud.st), ServiceStep(n, current, d))
                       || (r.error == ServiceNotVisible && AddsUnnamed(current, d))
  {
    ghost var st0 := cloud.st;
    issued := [];
    if current.None? {
      r, issued := AddAndVerify(cloud, n, d);
      return;
    }
    var c := current.value;
    if c.content.PoolId() != d.PoolId() {
      r, issued := Recreate(cloud, n, c.id, d);
    } else if c.content != d {
      issued := [UpdateService(n, c.id, d)];
      r := cloud.Do(UpdateService(n, c.id, d));
      RanOne(st0, UpdateService(n, c.id, d), cloud.st, r.Ok?);
      if r.Err? { BlamelessOne(r.error, st0, UpdateService(n, c.id, d)); }
    } else {
      r := Ok(());
    }
  }

  /** The pool of a service cannot be updated: delete the service, then add it again. */
  method Recreate(cloud: Cloud, n: string, id: nat, d: Content)
    returns (r: Result<(), Error>, ghost issued: seq<Call>)
    requires cloud.st.Valid()
    modifies cloud
    ensures cloud.st.Valid() && cloud.log == old(cloud.log) + issued
    ensures Counted(old(cloud.faults), cloud.faults, r)
    ensures Ran(old(cloud.st), [DeleteService(n, id), AddService(n, d)], cloud.st, issued, r.Ok?)
    ensures r.Ok? ==> d.name != ""
    ensures r.Err? ==> Blameless(r.error, old(cloud.st), [DeleteService(n, id), AddService(n, d)])
                       || (r.error == ServiceNotVisible && d.name == "")
  {
    ghost var st0, del, add := cloud.st, DeleteService(n, id), AddService(n, d);
    assert [del] + [add] == [del, add];
    r := cloud.Do(DeleteService(n, id));
    issued := [del];
    RanOne(st0, del, cloud.st, r.Ok?);
    ExecAppend(st0, [del], [add]);
    if r.Err? {
      RanPrefix(st0, [del], [add], cloud.st, [del]);
      BlamelessOne(r.error, st0, del);
      return;
    }
    ghost var st1 := cloud.st;
    ghost var rest;
    r, rest := AddAndVerify(cloud, n, d);
    issued := [del] + rest;
    RanThen(st0, [del], st1, [add], cloud.st, rest, r.Ok?);
  }

  /** Second loop: every desired service in turn. */
  method ReconcileServices(cloud: Cloud, n: string, kept: Services, ds: seq<Content>)
    returns (r: Result<(), Error>, ghost issued: seq<Call>)
    requires cloud.st.Valid()
    modifies cloud
    ensures cloud.st.Valid() && cloud.log == old(cloud.log) + issued
    ensures Counted(old(cloud.faults), cloud.faults, r)
    ensures Ran(old(cloud.st), ServicesPlan(n, kept, ds), cloud.st, issued, r.Ok?)
    ensures r.Ok? ==> !Unnamed(kept, ds)
    ensures r.Err? ==> Blameless(r.error, old(cloud.st), ServicesPlan(n, kept, ds))
                       || (r.error == ServiceNotVisible && Unnamed(kept, ds))
  {
    ghost var st0 := cloud.st;
    ghost var plan := ServicesPlan(n, kept, ds);
    issued := [];
    for i := 0 to |ds|
      invariant cloud.st.Valid() && cloud.log == old(cloud.log) + issued
      invariant cloud.faults == old(cloud.faults)
      invariant cloud.st == ExecAll(st0, issued)
      invariant plan == issued + ServicesPlan(n, kept, ds[i..])
      invariant forall j | 0 <= j < i :: !AddsUnnamed(Find(kept, ds[j].ServiceKey()), ds[j])
    {
      var d := ds[i];
      var key := d.ServiceKey();
      ghost var todo := ServicesPlan(n, kept, ds[i + 1..]);
      ghost var step := ServiceStep(n, Find(kept, key), d);
      assert ds[i..][0] == d && ds[i..][1..] == ds[i + 1..];
      ghost var more;
      r, more := ReconcileService(cloud, n, if key in kept then Some(kept[key]) else None, d);
      RanRound(st0, issued, step, todo, cloud.st, more, r.Ok?);
      ConcatAssociative(old(cloud.log), issued, more);
      ConcatAssociative(issued, more, todo);
      issued := issued + more;
      if r.Err? { return; }
    }
    r := Ok(());
  }

  /** Top-level fields, unless the NLB is external. */
  method UpdateTopLevel(cloud: Cloud, n: string, current: Snapshot, spec: Spec, ghost nlb: NLB)
    returns (r: Result<(), Error>, ghost issued: seq<Call>)
    requires cloud.st.Valid() && Describes(current, n, nlb)
    modifies cloud
    ensures cloud.st.Valid() && cloud.log == old(cloud.log) + issued
    ensures Counted(old(cloud.faults), cloud.faults, r)
    ensures var plan := TopPlan(n, nlb, spec);
            && Ran(old(cloud.st), plan, cloud.st, issued, r.Ok?)
            && (r.Err? ==> Blameless(r.error, old(cloud.st), plan))
  {
    if spec.external || (current.name == spec.name && current.description == spec.description) {
      return Ok(()), [];
    }
    ghost var st0, call := cloud.st, UpdateNLB(n, spec.name, nlb.description);
    issued := [call];
    r := cloud.Do(UpdateNLB(n, spec.name, current.description));
    RanOne(st0, call, cloud.st, r.Ok?);
    if r.Err? { BlamelessOne(r.error, st0, call); }
  }

  /** What a reconciliation of NLB `id` towards `target` may leave behind. */
  ghost predicate UpdateRan(st: CloudState, target: Result<Spec, Error>, id: string,
                            st': CloudState, issued: seq<Call>, ok: bool) {
    || (!ok && issued == [] && st' == st)
    || (&& target.Ok? && id != "" && id in st.nlbs
        && exists l :: Lists(l, st.nlbs[id].services)
                       && Ran(st, Plan(id, st.nlbs[id], l, target.value), st', issued, ok))
  }

  /** Nothing but a fault stands in the way of a reconciliation. */
  ghost predicate Updatable(st: CloudState, target: Result<Spec, Error>, id: string) {
    && target.Ok? && UniqueKeys(target.value.services) && id != "" && id in st.nlbs
    && !Unnamed(st.nlbs[id].services, target.value.services)
  }

  lemma ReplacedValid(st: CloudState, n: string, nlb: NLB)
    requires st.Valid() && n in st.nlbs && nlb.WellFormed()
    ensures st.(nlbs := st.nlbs[n := nlb]).Valid()
  {}

  /** Wherever a reconciliation stops, it has stayed on its own NLB and kept it well-formed. */
  lemma UpdateSafe(st: CloudState, spec: Spec, n: string, st': CloudState, issued: seq<Call>, ok: bool)
    requires st.Valid() && n in st.nlbs && UpdateRan(st, Ok(spec), n, st', issued, ok)
    ensures st'.Valid() && n in st'.nlbs && st' == st.(nlbs := st.nlbs[n := st'.nlbs[n]])
    ensures Reached(st.nlbs[n], st'.nlbs[n], KeysOf(spec.services), spec.external)
    ensures forall c | c in issued :: c.StaysOn(n) && (spec.external ==> c.IsServiceCall())
  {
    if !ok && issued == [] && st' == st {
      assert st.nlbs[n := st.nlbs[n]] == st.nlbs;
    } else {
      var l :| Lists(l, st.nlbs[n].services) && Ran(st, Plan(n, st.nlbs[n], l, spec), st', issued, ok);
      RunSafe(st, n, l, spec, st', issued, ok);
      ReplacedValid(st, n, st'.nlbs[n]);
    }
  }

  /** Why a reconciliation may fail. It is never because the API refuses a call on account of
      the state it meets, provided that the ports of the Service are distinct, and an added
      service is not visible only if one without a name was to be added. */
  ghost predicate Excused(e: Error, st: CloudState, target: Result<Spec, Error>, id: string) {
    match e
    case Fault => true
    case Invalid => target.Err?
    case NoIdAnnotation => id == ""
    case NotFound => id !in st.nlbs
    case ServiceNotVisible => target.Ok? && id in st.nlbs && Unnamed(st.nlbs[id].services, target.value.services)
    case Rejected => target.Ok? && !UniqueKeys(target.value.services)
    case _ => false
  }

  lemma PlanAdmissible(st: CloudState, n: string, l: seq<LBService>, spec: Spec)
    requires st.Valid() && n in st.nlbs && Lists(l, st.nlbs[n].services) && UniqueKeys(spec.services)
    ensures AllAdmissible(st, Plan(n, st.nlbs[n], l, spec))
  {
    var plan := Plan(n, st.nlbs[n], l, spec);
    WholePlan(n, st.nlbs[n], l, spec);
    PrefixSafe(n, st.nlbs[n], l, spec, plan);
    forall i | 0 <= i < |plan| ensures plan[i].StaysOn(n) { assert plan[i] in plan; }
    ExecOnOne(st, n, plan);
  }

  /** The services kept by the first loop tell the second all it needs to know. */
  lemma KeptSuffice(n: string, s: Services, kept: Services, ds: seq<Content>)
    requires kept == Restricted(s, KeysOf(ds))
    ensures ServicesPlan(n, s, ds) == ServicesPlan(n, kept, ds)
    ensures Unnamed(kept, ds) <==> Unnamed(s, ds)
  {
    ServicesPlanOfKept(n, s, kept, ds);
    forall d | d in ds ensures Find(s, d.ServiceKey()) == Find(kept, d.ServiceKey()) {
      var i :| 0 <= i < |ds| && ds[i] == d;
      assert d.ServiceKey() in KeysOf(ds);
    }
  }

  /** What precedes the second loop: the top-level update, then the pruning. */
  method ReconcileFirstHalf(cloud: Cloud, n: string, current: Snapshot, spec: Spec, ghost nlb: NLB)
    returns (r: Result<Services, Error>, ghost issued: seq<Call>)
    requires cloud.st.Valid() && Describes(current, n, nlb)
    modifies cloud
    ensures cloud.st.Valid() && cloud.log == old(cloud.log) + issued
    ensures Counted(old(cloud.faults), cloud.faults, r)
    ensures var plan := TopPlan(n, nlb, spec) + PruneAll(n, current.services, spec);
            && Ran(old(cloud.st), plan, cloud.st, issued, r.Ok?)
            && (r.Err? ==> Blameless(r.error, old(cloud.st), plan))
    ensures r.Ok? ==> r.value == Restricted(nlb.services, KeysOf(spec.services))
  {
    ghost var st0, top, prune := cloud.st, TopPlan(n, nlb, spec), PruneAll(n, current.services, spec);
    var updated;
    updated, issued := UpdateTopLevel(cloud, n, current, spec, nlb);
    ghost var st1 := cloud.st;
    ExecAppend(st0, top, prune);
    if updated.Err? {
      RanPrefix(st0, top, prune, st1, issued);
      return Err(updated.error), issued;
    }
    ghost var more;
    r, more := PruneServices(cloud, n, current.services, spec, nlb.services);
    RanThen(st0, top, st1, prune, cloud.st, more, r.Ok?);
    ConcatAssociative(old(cloud.log), issued, more);
    issued := issued + more;
  }

  /** The three stages of a reconciliation, on an NLB that has just been read. */
  method Reconcile(cloud: Cloud, n: string, current: Snapshot, spec: Spec)
    returns (r: Result<(), Error>, ghost issued: seq<Call>)
    requires cloud.st.Valid() && n in cloud.st.nlbs && Describes(current, n, cloud.st.nlbs[n])
    modifies cloud
    ensures cloud.st.Valid() && cloud.log == old(cloud.log) + issued
    ensures Counted(old(cloud.faults), cloud.faults, r)
    ensures Ran(old(cloud.st), Plan(n, old(cloud.st).nlbs[n], current.services, spec), cloud.st, issued, r.Ok?)
    ensures r.Ok? ==> !Unnamed(old(cloud.st).nlbs[n].services, spec.services)
    ensures r.Err? ==>
              || Blameless(r.error, old(cloud.st), Plan(n, old(cloud.st).nlbs[n], current.services, spec))
              || (r.error == ServiceNotVisible && Unnamed(old(cloud.st).nlbs[n].services, spec.services))
  {
    ghost var st0, nlb := cloud.st, cloud.st.nlbs[n];
    ghost var first := TopPlan(n, nlb, spec) + PruneAll(n, current.services, spec);
    ghost var rest := ServicesPlan(n, nlb.services, spec.services);
    ghost var more;
    var kept;
    kept, issued := ReconcileFirstHalf(cloud, n, current, spec, nlb);
    ghost var st1 := cloud.st;
    ExecAppend(st0, first, rest);
    if kept.Err? {
      RanPrefix(st0, first, rest, st1, issued);
      return Err(kept.error), issued;
    }
    KeptSuffice(n, nlb.services, kept.value, spec.services);
    r, more := ReconcileServices(cloud, n, kept.value, spec.services);
    RanThen(st0, first, st1, rest, cloud.st, more, r.Ok?);
    ConcatAssociative(old(cloud.log), issued, more);
    issued := issued + more;
  }

  method UpdateLoadBalancer(cloud: Cloud, service: Service, parsers: Parsers)
    returns (r: Result<(), Error>, ghost issued: seq<Call>)
    requires cloud.st.Valid()
    modifies cloud
    ensures cloud.st.Valid() && cloud.log == old(cloud.log) + issued
    ensures Counted(old(cloud.faults), cloud.faults, r)
    ensures var target := Build(service.manifest, service.annotations, parsers);
            var id := Get(service.annotations, IdAnnotation, "");
            && UpdateRan(old(cloud.st), target, id, cloud.st, issued, r.Ok?)
            && (r.Err? ==> Excused(r.error, old(cloud.st), target, id))
            && (r.Ok? ==> target.Ok? && id in old(cloud.st).nlbs
                          && !Unnamed(old(cloud.st).nlbs[id].services, target.value.services))
            && (target.Err? ==> r == Err(Invalid) && cloud.st == old(cloud.st) && cloud.log == old(cloud.log))
            && (cloud.faults == old(cloud.faults) && Updatable(old(cloud.st), target, id) ==> r.Ok?)
  {
    issued := [];
    var target := BuildLoadBalancerFromAnnotations(service, parsers);
    if target.Err? { return Err(Invalid), []; }
    var id := Get(service.annotations, IdAnnotation, "");
    if id == "" { return Err(NoIdAnnotation), []; }
    var current := cloud.GetLoadBalancer(id);
    if current.Err? { return Err(current.error), []; }
    r, issued := Reconcile(cloud, id, current.value, target.value);
    if r.Err? { FailureExcused(r.error, old(cloud.st), id, current.value.services, target.value); }
  }

  lemma FailureExcused(e: Error, st: CloudState, n: string, l: seq<LBService>, spec: Spec)
    requires st.Valid() && n in st.nlbs && Lists(l, st.nlbs[n].services)
    requires Blameless(e, st, Plan(n, st.nlbs[n], l, spec)) || (e == ServiceNotVisible && Unnamed(st.nlbs[n].services, spec.services))
    ensures Excused(e, st, Ok(spec), n)
  {
    if UniqueKeys(spec.services) { PlanAdmissible(st, n, l, spec); }
  }
}
