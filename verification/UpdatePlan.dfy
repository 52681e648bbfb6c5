/** The calls one reconciliation issues, as a function of the NLB it fetched, and what every
    prefix of them does. */
module UpdatePlan {
  import opened Prelude
  import opened LoadBalancerApi

  /** What a Service asks of its NLB. */
  datatype Spec = Spec(external: bool, name: string, description: string, services: seq<Content>)

  function KeysOf(ds: seq<Content>): set<Key> {
    set i | 0 <= i < |ds| :: ds[i].ServiceKey()
  }

  function ListedKeys(l: seq<LBService>): set<Key> {
    set i | 0 <= i < |l| :: l[i].content.ServiceKey()
  }

  ghost predicate UniqueKeys(ds: seq<Content>) {
    forall i, j | 0 <= i < j < |ds| :: ds[i].ServiceKey() != ds[j].ServiceKey()
  }

  /** `l` enumerates some of the services, each once. */
  ghost predicate Enumerates(l: seq<LBService>, s: Services) {
    && (forall i | 0 <= i < |l| :: l[i].content.ServiceKey() in s && s[l[i].content.ServiceKey()] == l[i])
    && (forall i, j | 0 <= i < j < |l| :: l[i].content.ServiceKey() != l[j].content.ServiceKey())
  }

  /** A listing holds every service once, in whatever order the API chose. */
  ghost predicate Lists(l: seq<LBService>, s: Services) {
    Enumerates(l, s) && s.Keys <= ListedKeys(l)
  }

  function Find(s: Services, k: Key): Option<LBService> {
    if k in s then Some(s[k]) else None
  }

  // ----- The plan --------------------------------------------------------------------------

  /** The request carries the description the NLB already has, not the one asked for. */
  function TopPlan(n: string, nlb: NLB, spec: Spec): seq<Call> {
    if !spec.external && (nlb.name != spec.name || nlb.description != spec.description)
    then [UpdateNLB(n, spec.name, nlb.description)]
    else []
  }

  function PruneOne(n: string, service: LBService, wanted: set<Key>): seq<Call> {
    if service.content.ServiceKey() in wanted then [] else [DeleteService(n, service.id)]
  }

  function PrunePlan(n: string, l: seq<LBService>, wanted: set<Key>): seq<Call> {
    if l == [] then [] else PruneOne(n, l[0], wanted) + PrunePlan(n, l[1..], wanted)
  }

  function ServiceStep(n: string, current: Option<LBService>, d: Content): seq<Call> {
    match current
    case None => [AddService(n, d)]
    case Some(c) =>
      if c.content.PoolId() != d.PoolId() then [DeleteService(n, c.id), AddService(n, d)]
      else if c.content != d then [UpdateService(n, c.id, d)]
      else []
  }

  function ServicesPlan(n: string, s: Services, ds: seq<Content>): seq<Call> {
    if ds == [] then [] else
      ServiceStep(n, Find(s, ds[0].ServiceKey()), ds[0]) + ServicesPlan(n, s, ds[1..])
  }

  function PruneAll(n: string, l: seq<LBService>, spec: Spec): seq<Call> {
    if spec.external then [] else PrunePlan(n, l, KeysOf(spec.services))
  }

  function Plan(n: string, nlb: NLB, l: seq<LBService>, spec: Spec): seq<Call> {
    TopPlan(n, nlb, spec) + PruneAll(n, l, spec) + ServicesPlan(n, nlb.services, spec.services)
  }

  // ----- Whole runs ------------------------------------------------------------------------

  /** What a desired service ends up as: an update cannot change the pool field. */
  function Settled(previous: Option<LBService>, d: Content): Content {
    if previous.Some? && previous.value.content.PoolId() == d.PoolId()
    then d.(pool := previous.value.content.pool)
    else d
  }

  lemma KeysOfTail(ds: seq<Content>)
    requires ds != []
    ensures KeysOf(ds) == {ds[0].ServiceKey()} + KeysOf(ds[1..])
    ensures UniqueKeys(ds) ==> ds[0].ServiceKey() !in KeysOf(ds[1..]) && UniqueKeys(ds[1..])
  {
    assert ds == [ds[0]] + ds[1..];
  }

  lemma ListedKeysTail(l: seq<LBService>)
    requires l != []
    ensures ListedKeys(l) == {l[0].content.ServiceKey()} + ListedKeys(l[1..])
  {
    assert l == [l[0]] + l[1..];
  }

  function Pruned(s: Services, listed: set<Key>, wanted: set<Key>): Services {
    map k | k in s && (k in wanted || k !in listed) :: s[k]
  }

  function Restricted(s: Services, wanted: set<Key>): Services {
    map k | k in s && k in wanted :: s[k]
  }

  lemma PrunedListed(s: Services, listed: set<Key>, wanted: set<Key>)
    requires s.Keys <= listed
    ensures Pruned(s, listed, wanted) == Restricted(s, wanted)
  {}

  lemma PrunedTwice(s: Services, k0: Key, listed: set<Key>, wanted: set<Key>)
    ensures Pruned(Pruned(s, {k0}, wanted), listed, wanted) == Pruned(s, {k0} + listed, wanted)
  {}

  /** One step of the pruning loop. */
  lemma PruneStep(n: string, nlb: NLB, l: seq<LBService>, wanted: set<Key>)
    requires nlb.WellFormed() && l != [] && Enumerates(l, nlb.services)
    ensures
      var nlb1 := RunOn(nlb, PruneOne(n, l[0], wanted));
      && nlb1.WellFormed() && AllAdmitted(nlb, PruneOne(n, l[0], wanted))
      && nlb1 == nlb.(services := Pruned(nlb.services, {l[0].content.ServiceKey()}, wanted))
      && Enumerates(l[1..], nlb1.services)
  {
    var k0 := l[0].content.ServiceKey();
    assert nlb.services[k0].id == l[0].id;
    if k0 in wanted {
      assert nlb.services == Pruned(nlb.services, {k0}, wanted);
    } else {
      var del := DeleteService(n, l[0].id);
      RunOnOne(nlb, del);
      WellFormedKept(nlb, del);
      assert Apply(nlb, del).services == Pruned(nlb.services, {k0}, wanted);
    }
  }

  lemma {:induction false} PrunePhase(n: string, nlb: NLB, l: seq<LBService>, wanted: set<Key>)
    requires nlb.WellFormed() && Enumerates(l, nlb.services)
    ensures RunOn(nlb, PrunePlan(n, l, wanted)) == nlb.(services := Pruned(nlb.services, ListedKeys(l), wanted))
    ensures AllAdmitted(nlb, PrunePlan(n, l, wanted))
    decreases |l|
  {
    if l == [] {
      assert Pruned(nlb.services, ListedKeys(l), wanted) == nlb.services;
    } else {
      PruneStep(n, nlb, l, wanted);
      var nlb1 := RunOn(nlb, PruneOne(n, l[0], wanted));
      PrunePhase(n, nlb1, l[1..], wanted);
      RunOnAppend(nlb, PruneOne(n, l[0], wanted), PrunePlan(n, l[1..], wanted));
      ListedKeysTail(l);
      PrunedTwice(nlb.services, l[0].content.ServiceKey(), ListedKeys(l[1..]), wanted);
    }
  }

  lemma ServiceStepPhase(n: string, nlb: NLB, d: Content)
    requires nlb.WellFormed()
    ensures
      var k := d.ServiceKey();
      var calls := ServiceStep(n, Find(nlb.services, k), d);
      var r := RunOn(nlb, calls);
      && r.WellFormed() && AllAdmitted(nlb, calls)
      && r.name == nlb.name && r.description == nlb.description && r.ip == nlb.ip
      && k in r.services && r.services[k].content == Settled(Find(nlb.services, k), d)
      && (forall j | j != k :: Find(r.services, j) == Find(nlb.services, j))
  {
    var k := d.ServiceKey();
    var calls := ServiceStep(n, Find(nlb.services, k), d);
    WellFormedAlong(nlb, calls);
    if k !in nlb.services {
      RunOnOne(nlb, AddService(n, d));
    } else {
      var c := nlb.services[k];
      if c.content.PoolId() != d.PoolId() {
        RunOnTwo(nlb, DeleteService(n, c.id), AddService(n, d));
      } else if c.content != d {
        RunOnOne(nlb, UpdateService(n, c.id, d));
      }
    }
  }

  lemma {:induction false} ServicesPhase(n: string, s: Services, nlb: NLB, ds: seq<Content>)
    requires nlb.WellFormed() && UniqueKeys(ds)
    requires forall i | 0 <= i < |ds| :: Find(s, ds[i].ServiceKey()) == Find(nlb.services, ds[i].ServiceKey())
    ensures
      var calls := ServicesPlan(n, s, ds);
      var r := RunOn(nlb, calls);
      && r.WellFormed() && AllAdmitted(nlb, calls)
      && r.name == nlb.name && r.description == nlb.description && r.ip == nlb.ip
      && (forall i | 0 <= i < |ds| ::
            ds[i].ServiceKey() in r.services
            && r.services[ds[i].ServiceKey()].content == Settled(Find(s, ds[i].ServiceKey()), ds[i]))
      && (forall j | j !in KeysOf(ds) :: Find(r.services, j) == Find(nlb.services, j))
    decreases |ds|
  {
    if ds != [] {
      var k := ds[0].ServiceKey();
      var head := ServiceStep(n, Find(s, k), ds[0]);
      var rest := ServicesPlan(n, s, ds[1..]);
      ServiceStepPhase(n, nlb, ds[0]);
      var mid := RunOn(nlb, head);
      ServicesPhase(n, s, mid, ds[1..]);
      RunOnAppend(nlb, head, rest);
      var r := RunOn(mid, rest);
      KeysOfTail(ds);
      assert Find(r.services, k) == Find(mid.services, k);
      forall i | 0 <= i < |ds|
        ensures ds[i].ServiceKey() in r.services
                && r.services[ds[i].ServiceKey()].content == Settled(Find(s, ds[i].ServiceKey()), ds[i])
      {
        if i > 0 { assert ds[i] == ds[1..][i - 1]; }
      }
    }
  }

  ghost predicate SameAt(a: NLB, b: NLB, k: Key) {
    Find(a.services, k) == Find(b.services, k)
  }

  lemma TopPhase(n: string, nlb: NLB, spec: Spec)
    ensures RunOn(nlb, TopPlan(n, nlb, spec)) == (if spec.external then nlb else nlb.(name := spec.name))
    ensures AllAdmitted(nlb, TopPlan(n, nlb, spec))
  {
    var top := TopPlan(n, nlb, spec);
    if top != [] { RunOnOne(nlb, top[0]); }
  }

  /** The part of the plan before the second loop. */
  lemma FirstHalf(n: string, nlb: NLB, l: seq<LBService>, spec: Spec)
    requires nlb.WellFormed() && Lists(l, nlb.services)
    ensures
      var calls := TopPlan(n, nlb, spec) + PruneAll(n, l, spec);
      var r := RunOn(nlb, calls);
      && AllAdmitted(nlb, calls)
      && r == (if spec.external then nlb else
                 nlb.(name := spec.name, services := Restricted(nlb.services, KeysOf(spec.services))))
  {
    var nlb1 := RunOn(nlb, TopPlan(n, nlb, spec));
    TopPhase(n, nlb, spec);
    RunOnAppend(nlb, TopPlan(n, nlb, spec), PruneAll(n, l, spec));
    if spec.external {
      assert RunOn(nlb1, []) == nlb1;
    } else {
      PrunePhase(n, nlb1, l, KeysOf(spec.services));
      PrunedListed(nlb.services, ListedKeys(l), KeysOf(spec.services));
    }
  }

  ghost predicate AllSettled(s: Services, s1: Services, ds: seq<Content>) {
    forall i | 0 <= i < |ds| ::
      var k := ds[i].ServiceKey();
      k in s1 && s1[k].content == Settled(Find(s, k), ds[i])
  }

  /** The exact outcome of a complete run, IDs and status aside. */
  ghost predicate Finished(nlb: NLB, r: NLB, spec: Spec) {
    && r.WellFormed()
    && r.name == (if spec.external then nlb.name else spec.name)
    && r.description == nlb.description && r.ip == nlb.ip
    && AllSettled(nlb.services, r.services, spec.services)
    && (forall k | k !in KeysOf(spec.services) ::
          if spec.external then SameAt(r, nlb, k) else k !in r.services)
  }

  lemma SecondHalf(n: string, nlb: NLB, mid: NLB, spec: Spec)
    requires mid.WellFormed() && UniqueKeys(spec.services)
    requires mid == (if spec.external then nlb else
                       nlb.(name := spec.name, services := Restricted(nlb.services, KeysOf(spec.services))))
    ensures
      var calls := ServicesPlan(n, nlb.services, spec.services);
      AllAdmitted(mid, calls) && Finished(nlb, RunOn(mid, calls), spec)
  {
    assert forall k | k in KeysOf(spec.services) :: Find(mid.services, k) == Find(nlb.services, k);
    ServicesPhase(n, nlb.services, mid, spec.services);
    var r := RunOn(mid, ServicesPlan(n, nlb.services, spec.services));
    forall k | k !in KeysOf(spec.services)
      ensures if spec.external then SameAt(r, nlb, k) else k !in r.services
    {
      assert Find(r.services, k) == Find(mid.services, k);
    }
  }

  /** The whole plan, run without a fault: every call is admitted, and the NLB is exactly this. */
  lemma WholePlan(n: string, nlb: NLB, l: seq<LBService>, spec: Spec)
    requires nlb.WellFormed() && Lists(l, nlb.services) && UniqueKeys(spec.services)
    ensures AllAdmitted(nlb, Plan(n, nlb, l, spec))
    ensures Finished(nlb, RunOn(nlb, Plan(n, nlb, l, spec)), spec)
  {
    FirstHalf(n, nlb, l, spec);
    var first := TopPlan(n, nlb, spec) + PruneAll(n, l, spec);
    WellFormedAlong(nlb, first);
    SecondHalf(n, nlb, RunOn(nlb, first), spec);
    RunOnAppend(nlb, first, ServicesPlan(n, nlb.services, spec.services));
  }
}
