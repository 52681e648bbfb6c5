/** What reconciliation promises: convergence, safety of every prefix, minimality, idempotence. */
module UpdateTheorems {
  import opened Prelude
  import opened LoadBalancerApi
  import opened UpdatePlan

  // ----- Convergence -----------------------------------------------------------------------

  /** The NLB offers the desired service, up to ID, status and the spelling of an empty pool. */
  ghost predicate Provides(nlb: NLB, d: Content) {
    var k := d.ServiceKey();
    k in nlb.services && nlb.services[k].content.Normal() == d.Normal()
  }

  /** Each desired service is there; the other keys are untouched when the NLB is external and
      vacant when it is not. */
  ghost predicate Converged(before: NLB, after: NLB, spec: Spec) {
    && (forall i | 0 <= i < |spec.services| :: Provides(after, spec.services[i]))
    && (forall k | k !in KeysOf(spec.services) ::
          if spec.external then SameAt(before, after, k) else k !in after.services)
  }

  lemma ProvidesAll(before: NLB, after: NLB, spec: Spec)
    requires Converged(before, after, spec)
    ensures forall d | d in spec.services :: Provides(after, d)
  {
    forall d | d in spec.services ensures Provides(after, d) {
      var i :| 0 <= i < |spec.services| && spec.services[i] == d;
      assert Provides(after, spec.services[i]);
    }
  }

  lemma SettledIsDesired(previous: Option<LBService>, d: Content)
    ensures Settled(previous, d).Normal() == d.Normal()
  {}

  /** A run that issues its whole plan converges, from every well-formed NLB. */
  lemma Convergence(n: string, nlb: NLB, l: seq<LBService>, spec: Spec)
    requires nlb.WellFormed() && Lists(l, nlb.services) && UniqueKeys(spec.services)
    ensures Converged(nlb, RunOn(nlb, Plan(n, nlb, l, spec)), spec)
    ensures !spec.external ==>
              var r := RunOn(nlb, Plan(n, nlb, l, spec));
              r.services.Keys == KeysOf(spec.services) && r.name == spec.name
  {
    WholePlan(n, nlb, l, spec);
    var r := RunOn(nlb, Plan(n, nlb, l, spec));
    forall i | 0 <= i < |spec.services|
      ensures Provides(r, spec.services[i])
    {
      SettledIsDesired(Find(nlb.services, spec.services[i].ServiceKey()), spec.services[i]);
    }
    if !spec.external {
      forall k
        ensures k in r.services <==> k in KeysOf(spec.services)
      {}
    }
  }

  /** Convergence fixes the services: two converged NLBs offer the same ones, provided that
      they started from the same foreign services when the NLB is external. */
  lemma ConvergedViewsAgree(b1: NLB, a1: NLB, b2: NLB, a2: NLB, spec: Spec)
    requires Converged(b1, a1, spec) && Converged(b2, a2, spec)
    requires spec.external ==>
               forall k | k !in KeysOf(spec.services) :: SameAt(b1, b2, k)
    ensures a1.View() == a2.View()
  {
    forall k
      ensures k in a1.services <==> k in a2.services
      ensures k in a1.services ==> a1.services[k].content.Normal() == a2.services[k].content.Normal()
    {
      if k in KeysOf(spec.services) {
        var i :| 0 <= i < |spec.services| && spec.services[i].ServiceKey() == k;
        assert Provides(a1, spec.services[i]) && Provides(a2, spec.services[i]);
      } else if spec.external {
        assert SameAt(b1, b2, k) && SameAt(b1, a1, k) && SameAt(b2, a2, k);
      }
    }
  }

  // ----- Every prefix ----------------------------------------------------------------------

  /** What holds after any part of a run that started from `nlb0`: unique keys and IDs, the
      description and address of the start, surviving services under their old keys, and no
      change to a foreign key except removal when the NLB is not external. */
  ghost predicate Reached(nlb0: NLB, nlb: NLB, keys: set<Key>, external: bool) {
    && nlb.WellFormed() && nlb.nextService >= nlb0.nextService
    && nlb.ip == nlb0.ip && nlb.description == nlb0.description
    && (external ==> nlb.name == nlb0.name)
    && (forall k | k in nlb.services ::
          nlb.services[k].id >= nlb0.nextService
          || (k in nlb0.services && nlb0.services[k].id == nlb.services[k].id))
    && (forall k | k !in keys :: SameAt(nlb0, nlb, k) || (!external && k !in nlb.services))
  }

  /** The calls a run may issue on NLB `n`. */
  ghost predicate Allowed(n: string, nlb0: NLB, keys: set<Key>, external: bool, c: Call) {
    match c
    case UpdateNLB(m, _, description) => m == n && !external && description == nlb0.description
    case AddService(m, content) => m == n && content.ServiceKey() in keys
    case UpdateService(m, _, content) => m == n && content.ServiceKey() in keys
    case DeleteService(m, id) =>
      m == n && exists k :: k in nlb0.services && nlb0.services[k].id == id && (k in keys || !external)
    case _ => false
  }

  lemma AllowedDelete(n: string, nlb0: NLB, nlb: NLB, keys: set<Key>, external: bool, c: Call)
    requires nlb0.WellFormed() && Reached(nlb0, nlb, keys, external)
    requires c.DeleteService? && Allowed(n, nlb0, keys, external, c)
    ensures Reached(nlb0, Apply(nlb, c), keys, external)
  {
    WellFormedKept(nlb, c);
    var k0 :| k0 in nlb0.services && nlb0.services[k0].id == c.service && (k0 in keys || !external);
    var r := Apply(nlb, c);
    forall k | k !in keys
      ensures SameAt(nlb0, r, k) || (!external && k !in r.services)
    {
      assert SameAt(nlb0, nlb, k) || (!external && k !in nlb.services);
      if k in nlb.services && nlb.services[k].id == c.service { assert k == k0; }
    }
  }

  lemma AllowedStep(n: string, nlb0: NLB, nlb: NLB, keys: set<Key>, external: bool, c: Call)
    requires nlb0.WellFormed() && Reached(nlb0, nlb, keys, external)
    requires Allowed(n, nlb0, keys, external, c)
    ensures Reached(nlb0, Apply(nlb, c), keys, external)
  {
    if c.DeleteService? {
      AllowedDelete(n, nlb0, nlb, keys, external, c);
    } else if Admits(nlb, c) {
      WellFormedKept(nlb, c);
      var r := Apply(nlb, c);
      forall k | k !in keys
        ensures SameAt(nlb0, r, k) || (!external && k !in r.services)
      {
        assert SameAt(nlb, r, k);
      }
    }
  }

  lemma {:induction false} AllowedRun(n: string, nlb0: NLB, nlb: NLB, keys: set<Key>, external: bool, calls: seq<Call>)
    requires nlb0.WellFormed() && Reached(nlb0, nlb, keys, external)
    requires forall i | 0 <= i < |calls| :: Allowed(n, nlb0, keys, external, calls[i])
    ensures Reached(nlb0, RunOn(nlb, calls), keys, external)
    decreases |calls|
  {
    if calls != [] {
      AllowedStep(n, nlb0, nlb, keys, external, calls[0]);
      AllowedRun(n, nlb0, Apply(nlb, calls[0]), keys, external, calls[1..]);
    }
  }

  lemma {:induction false} PruneAllowed(n: string, nlb: NLB, l: seq<LBService>, keys: set<Key>)
    requires Enumerates(l, nlb.services)
    ensures forall c | c in PrunePlan(n, l, keys) :: Allowed(n, nlb, keys, false, c)
    decreases |l|
  {
    if l != [] {
      assert nlb.services[l[0].content.ServiceKey()].id == l[0].id;
      PruneAllowed(n, nlb, l[1..], keys);
    }
  }

  lemma {:induction false} ServicesAllowed(n: string, nlb: NLB, ds: seq<Content>, keys: set<Key>, external: bool)
    requires KeysOf(ds) <= keys
    ensures forall c | c in ServicesPlan(n, nlb.services, ds) :: Allowed(n, nlb, keys, external, c)
    decreases |ds|
  {
    if ds != [] {
      KeysOfTail(ds);
      ServicesAllowed(n, nlb, ds[1..], keys, external);
      var k := ds[0].ServiceKey();
      assert k in keys;
      if k in nlb.services { assert nlb.services[k].id == Find(nlb.services, k).value.id; }
    }
  }

  lemma PlanAllowed(n: string, nlb: NLB, l: seq<LBService>, spec: Spec)
    requires Enumerates(l, nlb.services)
    ensures forall c | c in Plan(n, nlb, l, spec) ::
              Allowed(n, nlb, KeysOf(spec.services), spec.external, c)
  {
    var keys := KeysOf(spec.services);
    if !spec.external { PruneAllowed(n, nlb, l, keys); }
    ServicesAllowed(n, nlb, spec.services, keys, spec.external);
  }

  /** However a run is cut short, the NLB it leaves behind is well-formed and its foreign
      services are safe; only the desired keys, and obsolete services, are ever touched. */
  lemma PrefixSafe(n: string, nlb: NLB, l: seq<LBService>, spec: Spec, issued: seq<Call>)
    requires nlb.WellFormed() && Enumerates(l, nlb.services)
    requires issued <= Plan(n, nlb, l, spec)
    ensures Reached(nlb, RunOn(nlb, issued), KeysOf(spec.services), spec.external)
    ensures forall c | c in issued :: c.StaysOn(n) && (spec.external ==> c.IsServiceCall())
  {
    PlanAllowed(n, nlb, l, spec);
    forall i | 0 <= i < |issued|
      ensures Allowed(n, nlb, KeysOf(spec.services), spec.external, issued[i])
    {
      assert issued[i] == Plan(n, nlb, l, spec)[i];
    }
    AllowedRun(n, nlb, nlb, KeysOf(spec.services), spec.external, issued);
  }

  /** The calls of a run that took effect. */
  function Effective(st: CloudState, st': CloudState, issued: seq<Call>): seq<Call>
    requires st' == ExecAll(st, issued) || issued != []
  {
    if st' == ExecAll(st, issued) then issued else issued[..|issued| - 1]
  }

  lemma EffectiveRan(st: CloudState, plan: seq<Call>, st': CloudState, issued: seq<Call>, ok: bool)
    requires Ran(st, plan, st', issued, ok)
    ensures st' == ExecAll(st, Effective(st, st', issued)) && Effective(st, st', issued) <= issued <= plan
  {}

  lemma RunStays(st: CloudState, n: string, nlb: NLB, l: seq<LBService>, spec: Spec, effective: seq<Call>)
    requires n in st.nlbs && nlb == st.nlbs[n] && nlb.WellFormed() && Enumerates(l, nlb.services)
    requires effective <= Plan(n, nlb, l, spec)
    ensures ExecAll(st, effective) == st.(nlbs := st.nlbs[n := RunOn(nlb, effective)])
    ensures Reached(nlb, RunOn(nlb, effective), KeysOf(spec.services), spec.external)
  {
    PrefixSafe(n, nlb, l, spec, effective);
    forall i | 0 <= i < |effective| ensures effective[i].StaysOn(n) { assert effective[i] in effective; }
    ExecOnOne(st, n, effective);
  }

  /** The same for the whole API state: an interrupted run stays on its own NLB, keeps it, and
      leaves it well-formed; a complete run leaves it as `WholePlan` says. */
  lemma RunSafe(st: CloudState, n: string, l: seq<LBService>, spec: Spec, st': CloudState, issued: seq<Call>, ok: bool)
    requires st.Valid() && n in st.nlbs && Lists(l, st.nlbs[n].services)
    requires Ran(st, Plan(n, st.nlbs[n], l, spec), st', issued, ok)
    ensures n in st'.nlbs && st' == st.(nlbs := st.nlbs[n := st'.nlbs[n]])
    ensures Reached(st.nlbs[n], st'.nlbs[n], KeysOf(spec.services), spec.external)
    ensures forall c | c in issued :: c.StaysOn(n) && (spec.external ==> c.IsServiceCall())
    ensures ok ==> st'.nlbs[n] == RunOn(st.nlbs[n], Plan(n, st.nlbs[n], l, spec))
  {
    PrefixSafe(n, st.nlbs[n], l, spec, issued);
    RunStays(st, n, st.nlbs[n], l, spec, Effective(st, st', issued));
  }

  lemma AdmittedAt(nlb: NLB, calls: seq<Call>, i: nat)
    requires nlb.WellFormed() && AllAdmitted(nlb, calls) && i < |calls|
    ensures RunOn(nlb, calls[..i]).WellFormed() && Admits(RunOn(nlb, calls[..i]), calls[i])
  {
    WellFormedAlong(nlb, calls[..i]);
    assert calls == calls[..i] + calls[i..];
    RunOnAppend(nlb, calls[..i], calls[i..]);
    assert calls[i..][0] == calls[i];
  }

  /** No call of a run is ever refused on its own account; in particular an Add never meets an
      occupied key, wherever the run stands. */
  lemma NextCallAdmitted(n: string, nlb: NLB, l: seq<LBService>, spec: Spec, i: nat)
    requires nlb.WellFormed() && Lists(l, nlb.services) && UniqueKeys(spec.services)
    requires i < |Plan(n, nlb, l, spec)|
    ensures
      var plan := Plan(n, nlb, l, spec);
      var now := RunOn(nlb, plan[..i]);
      && now.WellFormed() && Admits(now, plan[i])
      && (plan[i].AddService? ==> plan[i].content.ServiceKey() !in now.services)
  {
    WholePlan(n, nlb, l, spec);
    AdmittedAt(nlb, Plan(n, nlb, l, spec), i);
  }

  // ----- The plan is minimal ---------------------------------------------------------------

  ghost predicate NoRepeats(calls: seq<Call>) {
    forall i, j | 0 <= i < j < |calls| :: calls[i] != calls[j]
  }

  lemma NoRepeatsConcat(a: seq<Call>, b: seq<Call>)
    requires NoRepeats(a) && NoRepeats(b)
    requires forall c | c in a :: c !in b
    ensures NoRepeats(a + b)
  {
    forall i, j | 0 <= i < j < |a + b|
      ensures (a + b)[i] != (a + b)[j]
    {
      if i < |a| <= j { assert a[i] in a && b[j - |a|] in b; }
    }
  }

  ghost predicate IsAt(s: Services, k: Key, id: nat) {
    k in s && s[k].id == id
  }

  lemma {:induction false} PruneCalls(n: string, s: Services, l: seq<LBService>, wanted: set<Key>)
    requires Enumerates(l, s)
    requires forall j, k | j in s && k in s && s[j].id == s[k].id :: j == k
    ensures forall c | c in PrunePlan(n, l, wanted) :: c.DeleteService? && c.nlb == n
    ensures forall id :: DeleteService(n, id) in PrunePlan(n, l, wanted) <==>
                         exists k :: IsAt(s, k, id) && k in ListedKeys(l) && k !in wanted
    ensures NoRepeats(PrunePlan(n, l, wanted))
    decreases |l|
  {
    if l != [] {
      var k0 := l[0].content.ServiceKey();
      ListedKeysTail(l);
      PruneCalls(n, s, l[1..], wanted);
      assert IsAt(s, k0, l[0].id);
      var head, rest := PruneOne(n, l[0], wanted), PrunePlan(n, l[1..], wanted);
      assert k0 !in ListedKeys(l[1..]);
      NoRepeatsConcat(head, rest);
      forall id
        ensures DeleteService(n, id) in head + rest <==>
                exists k :: IsAt(s, k, id) && k in ListedKeys(l) && k !in wanted
      {
        if DeleteService(n, id) in head {
          assert IsAt(s, k0, id) && k0 in ListedKeys(l) && k0 !in wanted;
        }
      }
    }
  }

  ghost predicate Repooled(s: Services, ds: seq<Content>, k: Key) {
    k in s && exists d :: d in ds && d.ServiceKey() == k && d.PoolId() != s[k].content.PoolId()
  }

  ghost predicate Missing(s: Services, d: Content) {
    d.ServiceKey() in s ==> d.PoolId() != s[d.ServiceKey()].content.PoolId()
  }

  ghost predicate Outdated(s: Services, id: nat, d: Content) {
    && IsAt(s, d.ServiceKey(), id)
    && d.PoolId() == s[d.ServiceKey()].content.PoolId() && d != s[d.ServiceKey()].content
  }

  lemma StepCalls(n: string, s: Services, d: Content)
    ensures
      var step := ServiceStep(n, Find(s, d.ServiceKey()), d);
      && (forall c | c in step :: c.IsServiceCall() && c.nlb == n)
      && (forall id :: DeleteService(n, id) in step <==> IsAt(s, d.ServiceKey(), id) && Repooled(s, [d], d.ServiceKey()))
      && (forall e :: AddService(n, e) in step <==> e == d && Missing(s, e))
      && (forall id, e :: UpdateService(n, id, e) in step <==> e == d && Outdated(s, id, e))
      && NoRepeats(step)
  {
    assert d in [d];
  }

  lemma {:induction false} ServiceCalls(n: string, s: Services, ds: seq<Content>)
    requires UniqueKeys(ds)
    requires forall j, k | j in s && k in s && s[j].id == s[k].id :: j == k
    ensures
      var plan := ServicesPlan(n, s, ds);
      && (forall c | c in plan :: c.IsServiceCall() && c.nlb == n)
      && (forall id :: DeleteService(n, id) in plan <==> exists k :: IsAt(s, k, id) && Repooled(s, ds, k))
      && (forall e :: AddService(n, e) in plan <==> e in ds && Missing(s, e))
      && (forall id, e :: UpdateService(n, id, e) in plan <==> e in ds && Outdated(s, id, e))
      && NoRepeats(plan)
    decreases |ds|
  {
    if ds != [] {
      var d, rest := ds[0], ds[1..];
      assert ds == [d] + rest;
      StepCalls(n, s, d);
      ServiceCalls(n, s, rest);
      KeysOfTail(ds);
      assert forall e | e in rest :: e.ServiceKey() in KeysOf(rest);
      assert forall k :: Repooled(s, ds, k) <==> Repooled(s, [d], k) || Repooled(s, rest, k);
      NoRepeatsConcat(ServiceStep(n, Find(s, d.ServiceKey()), d), ServicesPlan(n, s, rest));
    }
  }

  /** The calls of a plan come from exactly one of its three parts. */
  lemma PlanParts(n: string, nlb: NLB, l: seq<LBService>, spec: Spec)
    requires nlb.WellFormed() && Lists(l, nlb.services) && UniqueKeys(spec.services)
    ensures
      var prune, rest := PruneAll(n, l, spec), ServicesPlan(n, nlb.services, spec.services);
      && (forall c :: c in Plan(n, nlb, l, spec) <==> c in TopPlan(n, nlb, spec) || c in prune || c in rest)
      && (forall c | c in prune :: c.DeleteService? && c.nlb == n)
      && (forall id :: DeleteService(n, id) in prune <==>
            exists k :: IsAt(nlb.services, k, id) && k !in KeysOf(spec.services) && !spec.external)
      && NoRepeats(prune)
  {
    PruneCalls(n, nlb.services, l, KeysOf(spec.services));
  }

  lemma PlanSaysNothingTwice(n: string, nlb: NLB, l: seq<LBService>, spec: Spec)
    requires nlb.WellFormed() && Lists(l, nlb.services) && UniqueKeys(spec.services)
    ensures NoRepeats(Plan(n, nlb, l, spec))
  {
    var s, ds := nlb.services, spec.services;
    var top, prune, rest := TopPlan(n, nlb, spec), PruneAll(n, l, spec), ServicesPlan(n, s, ds);
    PlanParts(n, nlb, l, spec);
    ServiceCalls(n, s, ds);
    forall c | c in prune ensures c !in rest {
      assert c == DeleteService(n, c.service);
    }
    NoRepeatsConcat(top, prune);
    NoRepeatsConcat(top + prune, rest);
  }

  lemma MinimalDeletes(n: string, nlb: NLB, l: seq<LBService>, spec: Spec)
    requires nlb.WellFormed() && Lists(l, nlb.services) && UniqueKeys(spec.services)
    ensures
      var plan, s, ds := Plan(n, nlb, l, spec), nlb.services, spec.services;
      forall id :: DeleteService(n, id) in plan <==>
        (exists k :: IsAt(s, k, id) && k !in KeysOf(ds) && !spec.external)
        || exists k :: IsAt(s, k, id) && Repooled(s, ds, k)
  {
    PlanParts(n, nlb, l, spec);
    ServiceCalls(n, nlb.services, spec.services);
  }

  lemma MinimalChanges(n: string, nlb: NLB, l: seq<LBService>, spec: Spec)
    requires nlb.WellFormed() && Lists(l, nlb.services) && UniqueKeys(spec.services)
    ensures
      var plan, s, ds := Plan(n, nlb, l, spec), nlb.services, spec.services;
      && (forall d :: AddService(n, d) in plan <==> d in ds && Missing(s, d))
      && (forall id, d :: UpdateService(n, id, d) in plan <==> d in ds && Outdated(s, id, d))
  {
    PlanParts(n, nlb, l, spec);
    ServiceCalls(n, nlb.services, spec.services);
  }

  lemma MinimalTop(n: string, nlb: NLB, l: seq<LBService>, spec: Spec, name: string, description: string)
    requires nlb.WellFormed() && Lists(l, nlb.services) && UniqueKeys(spec.services)
    ensures UpdateNLB(n, name, description) in Plan(n, nlb, l, spec) <==>
              && !spec.external && (nlb.name != spec.name || nlb.description != spec.description)
              && name == spec.name && description == nlb.description
  {
    var call := UpdateNLB(n, name, description);
    PlanParts(n, nlb, l, spec);
    assert call !in PruneAll(n, l, spec);
    assert call !in ServicesPlan(n, nlb.services, spec.services) by { ServiceCalls(n, nlb.services, spec.services); }
  }

  /** The plan deletes the obsolete services (never on an external NLB) and those whose pool
      changed, adds the missing ones and those whose pool changed, updates the kept ones that
      differ elsewhere, touches the NLB itself only when its own name or description is off,
      and says nothing twice. */
  lemma MinimalPlan(n: string, nlb: NLB, l: seq<LBService>, spec: Spec)
    requires nlb.WellFormed() && Lists(l, nlb.services) && UniqueKeys(spec.services)
    ensures
      var plan, s, ds := Plan(n, nlb, l, spec), nlb.services, spec.services;
      && (forall id :: DeleteService(n, id) in plan <==>
            (exists k :: IsAt(s, k, id) && k !in KeysOf(ds) && !spec.external)
            || exists k :: IsAt(s, k, id) && Repooled(s, ds, k))
      && (forall d :: AddService(n, d) in plan <==> d in ds && Missing(s, d))
      && (forall id, d :: UpdateService(n, id, d) in plan <==> d in ds && Outdated(s, id, d))
      && (forall name, desc :: UpdateNLB(n, name, desc) in plan <==>
            && !spec.external && (nlb.name != spec.name || nlb.description != spec.description)
            && name == spec.name && desc == nlb.description)
      && (forall c | c in plan :: c.StaysOn(n))
      && NoRepeats(plan)
  {
    MinimalDeletes(n, nlb, l, spec);
    MinimalChanges(n, nlb, l, spec);
    forall name, description { MinimalTop(n, nlb, l, spec, name, description); }
    PrefixSafe(n, nlb, l, spec, Plan(n, nlb, l, spec));
    PlanSaysNothingTwice(n, nlb, l, spec);
  }

  // ----- Idempotence -----------------------------------------------------------------------

  /** The service was kept with no pool at all while the empty pool ID is asked for (or the
      reverse): equal as pool IDs, different as values, and an update cannot mend it. */
  predicate PoolBlind(previous: Option<LBService>, d: Content) {
    && previous.Some? && previous.value.content.PoolId() == d.PoolId()
    && previous.value.content.pool != d.pool
  }

  ghost predicate NoneBlind(s: Services, ds: seq<Content>) {
    forall i | 0 <= i < |ds| :: !PoolBlind(Find(s, ds[i].ServiceKey()), ds[i])
  }

  lemma {:induction false} PruneNothing(n: string, l: seq<LBService>, wanted: set<Key>)
    requires forall i | 0 <= i < |l| :: l[i].content.ServiceKey() in wanted
    ensures PrunePlan(n, l, wanted) == []
    decreases |l|
  {
    if l != [] { PruneNothing(n, l[1..], wanted); }
  }

  lemma NoneBlindTail(s: Services, ds: seq<Content>)
    requires ds != []
    ensures NoneBlind(s, ds) <==> !PoolBlind(Find(s, ds[0].ServiceKey()), ds[0]) && NoneBlind(s, ds[1..])
  {
    assert forall i | 1 <= i < |ds| :: ds[i] == ds[1..][i - 1];
    assert forall i | 0 <= i < |ds[1..]| :: ds[1..][i] == ds[i + 1];
  }

  lemma {:induction false} SecondServicesPlan(n: string, s: Services, s1: Services, ds: seq<Content>)
    requires AllSettled(s, s1, ds)
    ensures ServicesPlan(n, s1, ds) == [] <==> NoneBlind(s, ds)
    decreases |ds|
  {
    if ds != [] {
      assert forall i | 0 <= i < |ds[1..]| :: ds[1..][i] == ds[i + 1];
      SecondServicesPlan(n, s, s1, ds[1..]);
      NoneBlindTail(s, ds);
    }
  }

  /** The second run meets every desired service under its key and pool. */
  lemma {:induction false} OnlyUpdatesLeft(n: string, s: Services, s1: Services, ds: seq<Content>)
    requires AllSettled(s, s1, ds)
    ensures forall c | c in ServicesPlan(n, s1, ds) :: c.UpdateService?
    decreases |ds|
  {
    if ds != [] {
      assert forall i | 0 <= i < |ds[1..]| :: ds[1..][i] == ds[i + 1];
      OnlyUpdatesLeft(n, s, s1, ds[1..]);
      var c := Find(s1, ds[0].ServiceKey());
      assert c.Some? && c.value.content.PoolId() == ds[0].PoolId();
    }
  }

  /** The second plan has no pruning. */
  lemma NothingToPrune(n: string, s1: Services, l1: seq<LBService>, spec: Spec)
    requires Enumerates(l1, s1)
    requires !spec.external ==> s1.Keys <= KeysOf(spec.services)
    ensures PruneAll(n, l1, spec) == []
  {
    if !spec.external {
      forall i | 0 <= i < |l1| ensures l1[i].content.ServiceKey() in KeysOf(spec.services) {
        assert l1[i].content.ServiceKey() in s1;
      }
      PruneNothing(n, l1, KeysOf(spec.services));
    }
  }

  lemma FinishedKeys(nlb: NLB, nlb1: NLB, spec: Spec)
    requires Finished(nlb, nlb1, spec)
    ensures !spec.external ==> nlb1.services.Keys <= KeysOf(spec.services)
  {}

  lemma SecondPlan(n: string, nlb: NLB, nlb1: NLB, l1: seq<LBService>, spec: Spec)
    requires Finished(nlb, nlb1, spec) && Enumerates(l1, nlb1.services)
    ensures Plan(n, nlb1, l1, spec) == TopPlan(n, nlb1, spec) + ServicesPlan(n, nlb1.services, spec.services)
  {
    assert PruneAll(n, l1, spec) == [] by {
      FinishedKeys(nlb, nlb1, spec);
      NothingToPrune(n, nlb1.services, l1, spec);
    }
    assert TopPlan(n, nlb1, spec) + [] == TopPlan(n, nlb1, spec);
  }

  lemma NoServiceCalls(top: seq<Call>, rest: seq<Call>)
    requires (forall c | c in top :: c.UpdateNLB?) && forall c | c in rest :: c.UpdateService?
    ensures (forall c | c in top + rest :: !c.IsServiceCall()) <==> rest == []
  {
    assert rest != [] ==> rest[0] in top + rest;
  }

  lemma SomeTopCall(top: seq<Call>, rest: seq<Call>)
    requires (forall c | c in top :: c.UpdateNLB?) && forall c | c in rest :: c.UpdateService?
    ensures (exists c :: c in top + rest && c.UpdateNLB?) <==> top != []
  {
    assert top != [] ==> top[0] in top + rest;
  }

  lemma SecondTop(n: string, nlb: NLB, nlb1: NLB, spec: Spec)
    requires Finished(nlb, nlb1, spec)
    ensures TopPlan(n, nlb1, spec) != [] <==> !spec.external && nlb.description != spec.description
    ensures forall c | c in TopPlan(n, nlb1, spec) :: c.UpdateNLB?
  {}

  /** What a second run does, given how the first one finished. */
  lemma SecondRun(n: string, nlb: NLB, nlb1: NLB, l1: seq<LBService>, spec: Spec)
    requires Finished(nlb, nlb1, spec) && Lists(l1, nlb1.services)
    ensures
      var second := Plan(n, nlb1, l1, spec);
      && ((forall c | c in second :: !c.IsServiceCall()) <==> NoneBlind(nlb.services, spec.services))
      && ((exists c :: c in second && c.UpdateNLB?) <==> !spec.external && nlb.description != spec.description)
      && (forall c | c in second :: c.UpdateNLB? || c.UpdateService?)
  {
    var top, rest := TopPlan(n, nlb1, spec), ServicesPlan(n, nlb1.services, spec.services);
    assert Plan(n, nlb1, l1, spec) == top + rest by { SecondPlan(n, nlb, nlb1, l1, spec); }
    assert rest == [] <==> NoneBlind(nlb.services, spec.services) by {
      SecondServicesPlan(n, nlb.services, nlb1.services, spec.services);
    }
    assert forall c | c in rest :: c.UpdateService? by {
      OnlyUpdatesLeft(n, nlb.services, nlb1.services, spec.services);
    }
    SecondTop(n, nlb, nlb1, spec);
    NoServiceCalls(top, rest);
    SomeTopCall(top, rest);
    assert forall c | c in top + rest :: c in top || c in rest;
  }

  /** After a successful run the next one issues no service call exactly when no kept service
      was pool-blind, and it updates the NLB itself exactly when the NLB is not external and
      carries another description than the one asked for: that update never converges. */
  lemma Idempotence(n: string, nlb: NLB, l: seq<LBService>, nlb1: NLB, l1: seq<LBService>, spec: Spec)
    requires nlb.WellFormed() && Lists(l, nlb.services) && UniqueKeys(spec.services)
    requires nlb1 == RunOn(nlb, Plan(n, nlb, l, spec)) && Lists(l1, nlb1.services)
    ensures
      var second := Plan(n, nlb1, l1, spec);
      && ((forall c | c in second :: !c.IsServiceCall()) <==> NoneBlind(nlb.services, spec.services))
      && ((exists c :: c in second && c.UpdateNLB?) <==> !spec.external && nlb.description != spec.description)
      && (forall c | c in second :: c.UpdateNLB? || c.UpdateService?)
  {
    assert Finished(nlb, nlb1, spec) by { WholePlan(n, nlb, l, spec); }
    SecondRun(n, nlb, nlb1, l1, spec);
  }

  // ----- Pool-blind services are updated for ever --------------------------------------------

  ghost predicate HasPool(nlb: NLB, k: Key, id: nat, pool: Option<string>) {
    k in nlb.services && nlb.services[k].id == id && nlb.services[k].content.pool == pool
  }

  /** Only a delete takes a service away from its key, or its pool from the service. */
  lemma {:induction false} PoolStays(nlb: NLB, calls: seq<Call>, k: Key, id: nat, pool: Option<string>)
    requires HasPool(nlb, k, id, pool)
    requires forall i | 0 <= i < |calls| :: !(calls[i].DeleteService? && calls[i].service == id)
    ensures HasPool(RunOn(nlb, calls), k, id, pool)
    decreases |calls|
  {
    if calls != [] { PoolStays(Apply(nlb, calls[0]), calls[1..], k, id, pool); }
  }

  /** Its key is asked for, and only ever with the pool ID it has. */
  lemma BlindNotRepooled(s: Services, ds: seq<Content>, i: nat)
    requires UniqueKeys(ds) && i < |ds| && PoolBlind(Find(s, ds[i].ServiceKey()), ds[i])
    ensures ds[i].ServiceKey() in KeysOf(ds) && !Repooled(s, ds, ds[i].ServiceKey())
  {
    forall d | d in ds && d.ServiceKey() == ds[i].ServiceKey() ensures d == ds[i] {
      var h :| 0 <= h < |ds| && ds[h] == d;
    }
  }

  lemma BlindNotDeleted(n: string, nlb: NLB, l: seq<LBService>, spec: Spec, i: nat)
    requires nlb.WellFormed() && Lists(l, nlb.services) && UniqueKeys(spec.services)
    requires i < |spec.services| && PoolBlind(Find(nlb.services, spec.services[i].ServiceKey()), spec.services[i])
    ensures DeleteService(n, nlb.services[spec.services[i].ServiceKey()].id) !in Plan(n, nlb, l, spec)
  {
    var s, ds, k := nlb.services, spec.services, spec.services[i].ServiceKey();
    BlindNotRepooled(s, ds, i);
    assert forall j | IsAt(s, j, s[k].id) :: j == k;
    MinimalDeletes(n, nlb, l, spec);
  }

  /** No part of a run mends a pool-blind service. */
  lemma BlindStays(n: string, nlb: NLB, l: seq<LBService>, spec: Spec, i: nat, issued: seq<Call>)
    requires nlb.WellFormed() && Lists(l, nlb.services) && UniqueKeys(spec.services)
    requires i < |spec.services| && PoolBlind(Find(nlb.services, spec.services[i].ServiceKey()), spec.services[i])
    requires issued <= Plan(n, nlb, l, spec)
    ensures PoolBlind(Find(RunOn(nlb, issued).services, spec.services[i].ServiceKey()), spec.services[i])
  {
    var k := spec.services[i].ServiceKey();
    var id, pool := nlb.services[k].id, nlb.services[k].content.pool;
    BlindNotDeleted(n, nlb, l, spec, i);
    PrefixSafe(n, nlb, l, spec, issued);
    forall j | 0 <= j < |issued| ensures !(issued[j].DeleteService? && issued[j].service == id) {
      assert issued[j] in issued && issued[j] == Plan(n, nlb, l, spec)[j];
    }
    PoolStays(nlb, issued, k, id, pool);
  }

  /** Every run sends its useless update. */
  lemma BlindUpdated(n: string, nlb: NLB, l: seq<LBService>, spec: Spec, i: nat)
    requires nlb.WellFormed() && Lists(l, nlb.services) && UniqueKeys(spec.services)
    requires i < |spec.services| && PoolBlind(Find(nlb.services, spec.services[i].ServiceKey()), spec.services[i])
    ensures UpdateService(n, nlb.services[spec.services[i].ServiceKey()].id, spec.services[i]) in Plan(n, nlb, l, spec)
  {
    var d, k := spec.services[i], spec.services[i].ServiceKey();
    assert d in spec.services && Outdated(nlb.services, nlb.services[k].id, d);
    MinimalChanges(n, nlb, l, spec);
  }

  /** There are such NLBs, for every service asked for with the empty pool ID. */
  lemma BlindWitness(d: Content) returns (nlb: NLB)
    requires d.pool == Some("")
    ensures nlb.WellFormed() && PoolBlind(Find(nlb.services, d.ServiceKey()), d)
  {
    var s := map[d.ServiceKey() := LBService(0, d.(pool := None), "running", [])];
    nlb := NLB("nlb", "", "192.0.2.1", s, 1);
  }
}
