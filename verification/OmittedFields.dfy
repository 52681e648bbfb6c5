/** What becomes of reconciliation when the API keeps each field that an update request leaves
    empty: the client library drops such fields from the request. */
module OmittedFields {
  import opened Prelude
  import opened LoadBalancerApi
  import opened UpdatePlan
  import opened UpdateTheorems

  function Sent<T(==)>(wanted: T, empty: T, stored: T): T {
    if wanted == empty then stored else wanted
  }

  function MergedCheck(stored: HealthCheck, d: HealthCheck): HealthCheck {
    HealthCheck(Sent(d.mode, "", stored.mode), Sent(d.port, 0, stored.port), Sent(d.uri, "", stored.uri),
                Sent(d.interval, 0, stored.interval), Sent(d.timeout, 0, stored.timeout),
                Sent(d.retries, 0, stored.retries))
  }

  function MergedHealthcheck(stored: Option<HealthCheck>, d: Option<HealthCheck>): Option<HealthCheck> {
    if d.None? then stored else if stored.None? then d else Some(MergedCheck(stored.value, d.value))
  }

  /** The content of a service after an update. The key is the same on both sides. */
  function Merged(stored: Content, d: Content): Content {
    Content(Sent(d.name, "", stored.name), Sent(d.description, "", stored.description), d.port,
            Sent(d.targetPort, 0, stored.targetPort), d.protocol, Sent(d.strategy, "", stored.strategy),
            MergedHealthcheck(stored.healthcheck, d.healthcheck), stored.pool)
  }

  predicate Empties<T(==)>(wanted: T, empty: T, stored: T) {
    wanted == empty && stored != empty
  }

  predicate ClearsCheck(stored: HealthCheck, d: HealthCheck) {
    || Empties(d.mode, "", stored.mode) || Empties(d.port, 0, stored.port) || Empties(d.uri, "", stored.uri)
    || Empties(d.interval, 0, stored.interval) || Empties(d.timeout, 0, stored.timeout)
    || Empties(d.retries, 0, stored.retries)
  }

  /** The service is kept with its pool, and some field that it has is to be empty. */
  predicate Clears(previous: Option<LBService>, d: Content) {
    && previous.Some? && previous.value.content.PoolId() == d.PoolId()
    && var stored := previous.value.content;
       || Empties(d.name, "", stored.name) || Empties(d.description, "", stored.description)
       || Empties(d.targetPort, 0, stored.targetPort) || Empties(d.strategy, "", stored.strategy)
       || (stored.healthcheck.Some? && d.healthcheck.None?)
       || (stored.healthcheck.Some? && d.healthcheck.Some? && ClearsCheck(stored.healthcheck.value, d.healthcheck.value))
  }

  function ApplyMerging(nlb: NLB, c: Call): NLB {
    if !Admits(nlb, c) then nlb else
    match c
    case UpdateNLB(_, name, description) =>
      nlb.(name := Sent(name, "", nlb.name), description := Sent(description, "", nlb.description))
    case UpdateService(_, _, content) =>
      var k := content.ServiceKey();
      nlb.(services := nlb.services[k := nlb.services[k].(content := Merged(nlb.services[k].content, content))])
    case _ => Apply(nlb, c)
  }

  function RunMerging(nlb: NLB, calls: seq<Call>): NLB
    decreases |calls|
  {
    if calls == [] then nlb else RunMerging(ApplyMerging(nlb, calls[0]), calls[1..])
  }

  lemma {:induction false} MergingAppend(nlb: NLB, a: seq<Call>, b: seq<Call>)
    ensures RunMerging(nlb, a + b) == RunMerging(RunMerging(nlb, a), b)
    decreases |a|
  {
    if a == [] {
      assert a + b == b;
    } else {
      assert (a + b)[1..] == a[1..] + b;
      MergingAppend(ApplyMerging(nlb, a[0]), a[1..], b);
    }
  }

  /** Calls that add and delete are not concerned. */
  lemma {:induction false} NothingToMerge(nlb: NLB, calls: seq<Call>)
    requires forall i | 0 <= i < |calls| :: !calls[i].UpdateNLB? && !calls[i].UpdateService?
    ensures RunMerging(nlb, calls) == RunOn(nlb, calls)
    decreases |calls|
  {
    if calls != [] { NothingToMerge(Apply(nlb, calls[0]), calls[1..]); }
  }

  function SettledMerging(previous: Option<LBService>, d: Content): Content {
    if previous.Some? && previous.value.content.PoolId() == d.PoolId() then Merged(previous.value.content, d) else d
  }

  /** Merging gives what was asked for, the pool aside, exactly when nothing is to be cleared. */
  lemma MergedExactly(previous: Option<LBService>, d: Content)
    requires previous.Some? ==> previous.value.content.ServiceKey() == d.ServiceKey()
    ensures SettledMerging(previous, d).ServiceKey() == d.ServiceKey()
    ensures SettledMerging(previous, d).PoolId() == d.PoolId()
    ensures SettledMerging(previous, d) == Settled(previous, d) <==> !Clears(previous, d)
    ensures SettledMerging(previous, d).Normal() == d.Normal() <==> !Clears(previous, d)
  {}

  lemma MergingOne(nlb: NLB, c: Call)
    ensures RunMerging(nlb, [c]) == ApplyMerging(nlb, c)
  {
    assert RunMerging(ApplyMerging(nlb, c), []) == ApplyMerging(nlb, c);
  }

  /** One round of the second loop. */
  lemma StepMerging(n: string, nlb: NLB, d: Content)
    requires nlb.WellFormed()
    ensures
      var k := d.ServiceKey();
      var r := RunMerging(nlb, ServiceStep(n, Find(nlb.services, k), d));
      && r.WellFormed()
      && k in r.services && r.services[k].content == SettledMerging(Find(nlb.services, k), d)
      && (forall j | j != k :: Find(r.services, j) == Find(nlb.services, j))
  {
    var k := d.ServiceKey();
    var calls := ServiceStep(n, Find(nlb.services, k), d);
    if k in nlb.services && nlb.services[k].content.PoolId() == d.PoolId() {
      if nlb.services[k].content != d { MergingOne(nlb, UpdateService(n, nlb.services[k].id, d)); }
    } else {
      ServiceStepPhase(n, nlb, d);
      NothingToMerge(nlb, calls);
    }
  }

  ghost predicate AllSettledMerging(s: Services, s1: Services, ds: seq<Content>) {
    forall i | 0 <= i < |ds| ::
      var k := ds[i].ServiceKey();
      k in s1 && s1[k].content == SettledMerging(Find(s, k), ds[i])
  }

  /** The second loop. */
  lemma {:induction false} ServicesMerging(n: string, s: Services, nlb: NLB, ds: seq<Content>)
    requires nlb.WellFormed() && UniqueKeys(ds)
    requires forall i | 0 <= i < |ds| :: Find(s, ds[i].ServiceKey()) == Find(nlb.services, ds[i].ServiceKey())
    ensures
      var r := RunMerging(nlb, ServicesPlan(n, s, ds));
      && r.WellFormed() && AllSettledMerging(s, r.services, ds)
      && (forall j | j !in KeysOf(ds) :: Find(r.services, j) == Find(nlb.services, j))
    decreases |ds|
  {
    if ds != [] {
      var k := ds[0].ServiceKey();
      var head, rest := ServiceStep(n, Find(s, k), ds[0]), ServicesPlan(n, s, ds[1..]);
      StepMerging(n, nlb, ds[0]);
      var mid := RunMerging(nlb, head);
      KeysOfTail(ds);
      ServicesMerging(n, s, mid, ds[1..]);
      MergingAppend(nlb, head, rest);
      var r := RunMerging(mid, rest);
      assert Find(r.services, k) == Find(mid.services, k);
      forall i | 0 <= i < |ds|
        ensures ds[i].ServiceKey() in r.services
                && r.services[ds[i].ServiceKey()].content == SettledMerging(Find(s, ds[i].ServiceKey()), ds[i])
      {
        if i > 0 { assert ds[i] == ds[1..][i - 1]; }
      }
    }
  }

  /** What precedes the second loop. */
  lemma FirstHalfMerging(n: string, nlb: NLB, l: seq<LBService>, spec: Spec)
    requires nlb.WellFormed() && Lists(l, nlb.services)
    ensures
      var r := RunMerging(nlb, TopPlan(n, nlb, spec) + PruneAll(n, l, spec));
      && r.WellFormed()
      && r.services == if spec.external then nlb.services else Restricted(nlb.services, KeysOf(spec.services))
  {
    var top, prune := TopPlan(n, nlb, spec), PruneAll(n, l, spec);
    var nlb1 := RunMerging(nlb, top);
    MergingAppend(nlb, top, prune);
    if top != [] { MergingOne(nlb, top[0]); }
    assert nlb1.WellFormed() && nlb1.services == nlb.services;
    if !spec.external {
      PruneCalls(n, nlb.services, l, KeysOf(spec.services));
      NothingToMerge(nlb1, prune);
      PrunePhase(n, nlb1, l, KeysOf(spec.services));
      WellFormedAlong(nlb1, prune);
      PrunedListed(nlb.services, ListedKeys(l), KeysOf(spec.services));
    }
  }

  ghost predicate ForeignSettled(before: NLB, after: NLB, spec: Spec) {
    forall k | k !in KeysOf(spec.services) ::
      if spec.external then SameAt(before, after, k) else k !in after.services
  }

  lemma WholeMerging(n: string, nlb: NLB, l: seq<LBService>, spec: Spec)
    requires nlb.WellFormed() && Lists(l, nlb.services) && UniqueKeys(spec.services)
    ensures
      var r := RunMerging(nlb, Plan(n, nlb, l, spec));
      r.WellFormed() && AllSettledMerging(nlb.services, r.services, spec.services) && ForeignSettled(nlb, r, spec)
  {
    var first, rest := TopPlan(n, nlb, spec) + PruneAll(n, l, spec), ServicesPlan(n, nlb.services, spec.services);
    FirstHalfMerging(n, nlb, l, spec);
    MergingAppend(nlb, first, rest);
    var mid := RunMerging(nlb, first);
    assert forall k | k in KeysOf(spec.services) :: Find(mid.services, k) == Find(nlb.services, k);
    ServicesMerging(n, nlb.services, mid, spec.services);
    var r := RunMerging(mid, rest);
    assert forall k | k !in KeysOf(spec.services) :: Find(r.services, k) == Find(mid.services, k);
  }

  ghost predicate NoneCleared(s: Services, ds: seq<Content>) {
    forall i | 0 <= i < |ds| :: !Clears(Find(s, ds[i].ServiceKey()), ds[i])
  }

  ghost predicate AllProvided(r: NLB, ds: seq<Content>) {
    forall i | 0 <= i < |ds| :: Provides(r, ds[i])
  }

  lemma ProvidedExactly(s: Services, r: NLB, ds: seq<Content>)
    requires AllSettledMerging(s, r.services, ds)
    requires forall k | k in s :: s[k].content.ServiceKey() == k
    ensures AllProvided(r, ds) <==> NoneCleared(s, ds)
  {
    forall i | 0 <= i < |ds| ensures Provides(r, ds[i]) <==> !Clears(Find(s, ds[i].ServiceKey()), ds[i]) {
      MergedExactly(Find(s, ds[i].ServiceKey()), ds[i]);
    }
  }

  /** With such an API a complete run converges exactly when no kept service of equal pool has to
      have a field cleared. */
  lemma ConvergesExactly(n: string, nlb: NLB, l: seq<LBService>, spec: Spec)
    requires nlb.WellFormed() && Lists(l, nlb.services) && UniqueKeys(spec.services)
    ensures Converged(nlb, RunMerging(nlb, Plan(n, nlb, l, spec)), spec) <==> NoneCleared(nlb.services, spec.services)
  {
    var r := RunMerging(nlb, Plan(n, nlb, l, spec));
    WholeMerging(n, nlb, l, spec);
    ProvidedExactly(nlb.services, r, spec.services);
    assert Converged(nlb, r, spec) <==> AllProvided(r, spec.services) by { assert ForeignSettled(nlb, r, spec); }
  }

  lemma {:induction false} QuietMerging(n: string, s: Services, s1: Services, ds: seq<Content>)
    requires AllSettledMerging(s, s1, ds)
    requires forall k | k in s :: s[k].content.ServiceKey() == k
    ensures ServicesPlan(n, s1, ds) == [] <==> NoneBlind(s, ds) && NoneCleared(s, ds)
    decreases |ds|
  {
    if ds != [] {
      var k := ds[0].ServiceKey();
      assert forall i | 0 <= i < |ds[1..]| :: ds[1..][i] == ds[i + 1];
      QuietMerging(n, s, s1, ds[1..]);
      NoneBlindTail(s, ds);
      NoneClearedTail(s, ds);
      MergedExactly(Find(s, k), ds[0]);
      assert ServiceStep(n, Find(s1, k), ds[0]) == [] <==>
             !PoolBlind(Find(s, k), ds[0]) && !Clears(Find(s, k), ds[0]);
    }
  }

  lemma NoneClearedTail(s: Services, ds: seq<Content>)
    requires ds != []
    ensures NoneCleared(s, ds) <==> !Clears(Find(s, ds[0].ServiceKey()), ds[0]) && NoneCleared(s, ds[1..])
  {
    assert forall i | 1 <= i < |ds| :: ds[i] == ds[1..][i - 1];
    assert forall i | 0 <= i < |ds[1..]| :: ds[1..][i] == ds[i + 1];
  }

  /** After a complete run the next second loop has nothing to do exactly when, besides, no kept
      service is pool-blind. */
  lemma IdempotentExactly(n: string, nlb: NLB, l: seq<LBService>, spec: Spec)
    requires nlb.WellFormed() && Lists(l, nlb.services) && UniqueKeys(spec.services)
    ensures ServicesPlan(n, RunMerging(nlb, Plan(n, nlb, l, spec)).services, spec.services) == []
            <==> NoneBlind(nlb.services, spec.services) && NoneCleared(nlb.services, spec.services)
  {
    WholeMerging(n, nlb, l, spec);
    QuietMerging(n, nlb.services, RunMerging(nlb, Plan(n, nlb, l, spec)).services, spec.services);
  }
}
