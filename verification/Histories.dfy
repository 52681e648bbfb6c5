/** Whole histories of runs: retries, Services that share an NLB, and the ensure/delete round
    trip. A run appears here as the relation that its method's contract states. */
module Histories {
  import opened Prelude
  import opened LoadBalancerApi
  import opened UpdatePlan
  import opened UpdateTheorems
  import opened ServiceSpec
  import opened Controller
  import opened LoadBalancers
  import opened Withdrawal

  // ----- Single runs -----------------------------------------------------------------------

  /** The NLB that an Ensure run works on. */
  function EnsuredId(st: CloudState, id: string): string {
    if id != "" && id in st.nlbs then id else st.FreshId()
  }

  function EnsuredFrom(st: CloudState, id: string, spec: Spec): NLB {
    if id != "" && id in st.nlbs then st.nlbs[id] else FreshNLB(st.FreshId(), spec.name, spec.description)
  }

  /** A successful reconciliation converges, from any valid state. */
  lemma UpdateConverges(st: CloudState, spec: Spec, n: string, st': CloudState, issued: seq<Call>)
    requires st.Valid() && UniqueKeys(spec.services)
    requires UpdateRan(st, Ok(spec), n, st', issued, true)
    ensures n in st'.nlbs && st' == st.(nlbs := st.nlbs[n := st'.nlbs[n]])
    ensures Converged(st.nlbs[n], st'.nlbs[n], spec)
    ensures !spec.external ==> st'.nlbs[n].services.Keys == KeysOf(spec.services)
  {
    var l :| Lists(l, st.nlbs[n].services) && Ran(st, Plan(n, st.nlbs[n], l, spec), st', issued, true);
    RunSafe(st, n, l, spec, st', issued, true);
    Convergence(n, st.nlbs[n], l, spec);
  }

  /** A successful Ensure run converges, whether it found its NLB or created it. */
  lemma EnsureConverges(st: CloudState, spec: Spec, id: string, st': CloudState, issued: seq<Call>)
    requires st.Valid() && UniqueKeys(spec.services)
    requires EnsureRan(st, Ok(spec), id, st', issued, true)
    ensures var n := EnsuredId(st, id);
            && n in st'.nlbs && Converged(EnsuredFrom(st, id, spec), st'.nlbs[n], spec)
            && (!spec.external ==> st'.nlbs[n].services.Keys == KeysOf(spec.services))
            && (forall i | i != n :: i in st'.nlbs <==> i in st.nlbs)
  {
    if id != "" && id in st.nlbs {
      UpdateConverges(st, spec, id, st', issued);
    } else {
      var n, create := st.FreshId(), CreateNLB(spec.name, spec.description);
      var nlb, st1 := FreshNLB(n, spec.name, spec.description), Effect(st, create);
      var plan := Plan(n, nlb, [], spec);
      ValidKept(st, create);
      ExecAppend(st, [create], plan);
      ExecSnoc(st, [], create);
      assert [] + [create] == [create];
      RanDone(st1, plan);
      assert Lists([], st1.nlbs[n].services);
      UpdateConverges(st1, spec, n, st', plan);
    }
  }

  // ----- Retries ---------------------------------------------------------------------------

  /** Interrupted and successful reconciliations of one spec on one NLB, one after the other. */
  ghost predicate Retries(sts: seq<CloudState>, spec: Spec, n: string, oks: seq<bool>, issued: seq<seq<Call>>) {
    && |sts| == |oks| + 1 && |issued| == |oks|
    && forall i | 0 <= i < |oks| :: UpdateRan(sts[i], Ok(spec), n, sts[i + 1], issued[i], oks[i])
  }

  /** No number of runs changes the description of the NLB, let alone a foreign service of an
      external one. */
  lemma {:induction false} RetriesSafe(sts: seq<CloudState>, spec: Spec, n: string, oks: seq<bool>, issued: seq<seq<Call>>)
    requires Retries(sts, spec, n, oks, issued) && sts[0].Valid() && n in sts[0].nlbs
    ensures var last := sts[|oks|];
            && last.Valid() && n in last.nlbs
            && last.nlbs[n].description == sts[0].nlbs[n].description && last.nlbs[n].ip == sts[0].nlbs[n].ip
            && (spec.external ==> forall k | k !in KeysOf(spec.services) :: SameAt(sts[0].nlbs[n], last.nlbs[n], k))
    decreases |oks|
  {
    if oks != [] {
      var i := |oks| - 1;
      RetriesSafe(sts[..|oks|], spec, n, oks[..i], issued[..i]);
      UpdateSafe(sts[i], spec, n, sts[i + 1], issued[i], oks[i]);
      if spec.external {
        forall k | k !in KeysOf(spec.services) ensures SameAt(sts[0].nlbs[n], sts[i + 1].nlbs[n], k) {
          assert SameAt(sts[0].nlbs[n], sts[i].nlbs[n], k) && SameAt(sts[i].nlbs[n], sts[i + 1].nlbs[n], k);
        }
      }
    }
  }

  /** Two converged runs of one spec, from states that agree on the foreign services. */
  lemma SameOutcome(st: CloudState, st1: CloudState, st2: CloudState, spec: Spec, n: string,
                    issued: seq<Call>, l0: seq<LBService>)
    requires st.Valid() && st1.Valid() && n in st.nlbs && n in st1.nlbs
    requires UniqueKeys(spec.services) && Lists(l0, st.nlbs[n].services)
    requires spec.external ==> forall k | k !in KeysOf(spec.services) :: SameAt(st.nlbs[n], st1.nlbs[n], k)
    requires UpdateRan(st1, Ok(spec), n, st2, issued, true)
    ensures n in st2.nlbs
            && st2.nlbs[n].View() == RunOn(st.nlbs[n], Plan(n, st.nlbs[n], l0, spec)).View()
  {
    UpdateConverges(st1, spec, n, st2, issued);
    Convergence(n, st.nlbs[n], l0, spec);
    var direct := RunOn(st.nlbs[n], Plan(n, st.nlbs[n], l0, spec));
    ConvergedViewsAgree(st1.nlbs[n], st2.nlbs[n], st.nlbs[n], direct, spec);
  }

  /** Retry convergence: after any number of runs cut short anywhere, one successful run ends
      with the services that a single faultless run from the initial state would have left. */
  lemma RetryConvergence(sts: seq<CloudState>, spec: Spec, n: string, oks: seq<bool>, issued: seq<seq<Call>>,
                         l0: seq<LBService>)
    requires Retries(sts, spec, n, oks, issued) && sts[0].Valid() && n in sts[0].nlbs
    requires UniqueKeys(spec.services) && Lists(l0, sts[0].nlbs[n].services)
    requires oks != [] && oks[|oks| - 1]
    ensures n in sts[|oks|].nlbs
            && sts[|oks|].nlbs[n].View() == RunOn(sts[0].nlbs[n], Plan(n, sts[0].nlbs[n], l0, spec)).View()
  {
    var i := |oks| - 1;
    RetriesSafe(sts[..|oks|], spec, n, oks[..i], issued[..i]);
    assert UpdateRan(sts[i], Ok(spec), n, sts[i + 1], issued[i], oks[i]);
    SameOutcome(sts[0], sts[i], sts[i + 1], spec, n, issued[i], l0);
  }

  /** Wherever the earlier runs stopped, the API admits each call of the next plan: no state they
      leave behind makes it refuse one. */
  lemma RetriesNeverStuck(sts: seq<CloudState>, spec: Spec, n: string, oks: seq<bool>, issued: seq<seq<Call>>,
                          l: seq<LBService>)
    requires Retries(sts, spec, n, oks, issued) && sts[0].Valid() && n in sts[0].nlbs
    requires UniqueKeys(spec.services)
    ensures n in sts[|oks|].nlbs
    ensures Lists(l, sts[|oks|].nlbs[n].services) ==>
              AllAdmissible(sts[|oks|], Plan(n, sts[|oks|].nlbs[n], l, spec))
  {
    RetriesSafe(sts, spec, n, oks, issued);
    var last := sts[|oks|];
    if Lists(l, last.nlbs[n].services) { PlanAdmissible(last, n, l, spec); }
  }

  ghost predicate BlindIn(st: CloudState, n: string, d: Content) {
    n in st.nlbs && PoolBlind(Find(st.nlbs[n].services, d.ServiceKey()), d)
  }

  lemma BlindAfterCalls(st: CloudState, n: string, nlb: NLB, l: seq<LBService>, spec: Spec, i: nat, effective: seq<Call>)
    requires st.Valid() && n in st.nlbs && nlb == st.nlbs[n] && Lists(l, nlb.services)
    requires UniqueKeys(spec.services) && i < |spec.services| && BlindIn(st, n, spec.services[i])
    requires effective <= Plan(n, nlb, l, spec)
    ensures BlindIn(ExecAll(st, effective), n, spec.services[i])
  {
    RunStays(st, n, nlb, l, spec, effective);
    BlindStays(n, nlb, l, spec, i, effective);
  }

  lemma BlindAfterRun(st: CloudState, spec: Spec, n: string, st': CloudState, issued: seq<Call>, ok: bool, i: nat)
    requires st.Valid() && UpdateRan(st, Ok(spec), n, st', issued, ok)
    requires UniqueKeys(spec.services) && i < |spec.services| && BlindIn(st, n, spec.services[i])
    ensures BlindIn(st', n, spec.services[i])
  {
    if !(!ok && issued == [] && st' == st) {
      var l :| Lists(l, st.nlbs[n].services) && Ran(st, Plan(n, st.nlbs[n], l, spec), st', issued, ok);
      EffectiveRan(st, Plan(n, st.nlbs[n], l, spec), st', issued, ok);
      BlindAfterCalls(st, n, st.nlbs[n], l, spec, i, Effective(st, st', issued));
    }
  }

  lemma BlindOneMore(st: CloudState, spec: Spec, n: string, st': CloudState, issued: seq<Call>, ok: bool, i: nat)
    requires st.Valid() && UpdateRan(st, Ok(spec), n, st', issued, ok)
    requires UniqueKeys(spec.services) && i < |spec.services| && BlindIn(st, n, spec.services[i])
    ensures st'.Valid() && BlindIn(st', n, spec.services[i])
  {
    UpdateSafe(st, spec, n, st', issued, ok);
    BlindAfterRun(st, spec, n, st', issued, ok, i);
  }

  lemma BlindAt(sts: seq<CloudState>, spec: Spec, n: string, oks: seq<bool>,
                issued: seq<seq<Call>>, i: nat, j: nat)
    requires Retries(sts, spec, n, oks, issued) && sts[0].Valid() && j <= |oks|
    requires UniqueKeys(spec.services) && i < |spec.services| && BlindIn(sts[0], n, spec.services[i])
    ensures sts[j].Valid() && BlindIn(sts[j], n, spec.services[i])
  {
    var blind := (st: CloudState) => st.Valid() && BlindIn(st, n, spec.services[i]);
    forall h | 0 < h < |sts| && blind(sts[h - 1]) ensures blind(sts[h]) {
      assert UpdateRan(sts[h - 1], Ok(spec), n, sts[h - 1 + 1], issued[h - 1], oks[h - 1]);
      BlindOneMore(sts[h - 1], spec, n, sts[h], issued[h - 1], oks[h - 1], i);
    }
    Along(sts, blind, j);
    assert blind(sts[j]);
  }

  /** A pool-blind service is never mended: after any number of runs it still is one, and the
      next run sends the same update once more. */
  lemma BlindForEver(sts: seq<CloudState>, spec: Spec, n: string, oks: seq<bool>,
                     issued: seq<seq<Call>>, i: nat, l: seq<LBService>)
    requires Retries(sts, spec, n, oks, issued) && sts[0].Valid()
    requires UniqueKeys(spec.services) && i < |spec.services| && BlindIn(sts[0], n, spec.services[i])
    ensures var last, d := sts[|oks|], spec.services[i];
            && BlindIn(last, n, d)
            && (Lists(l, last.nlbs[n].services) ==>
                  UpdateService(n, last.nlbs[n].services[d.ServiceKey()].id, d) in Plan(n, last.nlbs[n], l, spec))
  {
    BlindAt(sts, spec, n, oks, issued, i, |oks|);
    if Lists(l, sts[|oks|].nlbs[n].services) { BlindUpdated(n, sts[|oks|].nlbs[n], l, spec, i); }
  }

  /** On success every service of the Service has the pool that its annotations name. */
  lemma EnsuredPools(st: CloudState, m: Manifest, a: Annotations, parsers: Parsers, id: string,
                     st': CloudState, issued: seq<Call>, k: Key)
    requires st.Valid() && UniquePorts(m) && k in PortKeys(m)
    requires EnsureRan(st, Build(m, a, parsers), id, st', issued, true)
    ensures var n := EnsuredId(st, id);
            && n in st'.nlbs && k in st'.nlbs[n].services
            && st'.nlbs[n].services[k].content.PoolId() == PoolOf(a)
  {
    var spec, n := Build(m, a, parsers).value, EnsuredId(st, id);
    BuildFaithful(m, a, parsers);
    EnsureConverges(st, spec, id, st', issued);
    var i :| 0 <= i < |spec.services| && spec.services[i].ServiceKey() == k;
    assert Provides(st'.nlbs[n], spec.services[i]);
    assert st'.nlbs[n].services[k].content.PoolId() == spec.services[i].PoolId();
  }

  // ----- Ensure, then delete ---------------------------------------------------------------

  lemma OwnedWhenWanted(m: Manifest, k: Key)
    requires k in PortKeys(m)
    ensures Owned(k, PortKeys(m))
  {
    var i :| 0 <= i < |m.ports| && PortKey(m.ports[i]) == k;
    LowerIdempotent(m.ports[i].protocol);
  }

  /** What a successful delete run leaves of the NLB it fetched. */
  ghost predicate Withdrawn(st: CloudState, n: string, keys: set<Key>, external: bool, st': CloudState) {
    n in st.nlbs
    && var left := Unowned(st.nlbs[n].services, keys);
       if !external && left.Keys == {}
       then st' == st.(nlbs := Without(st.nlbs, n))
       else st' == st.(nlbs := st.nlbs[n := st.nlbs[n].(services := left)])
  }

  lemma DeletesOnCloud(st: CloudState, n: string, l: seq<LBService>, m: Manifest)
    requires st.Valid() && n in st.nlbs && Lists(l, st.nlbs[n].services) && UniquePorts(m)
    ensures ExecAll(st, Deletes(n, l, m.ports)) ==
            st.(nlbs := st.nlbs[n := st.nlbs[n].(services := Unowned(st.nlbs[n].services, PortKeys(m)))])
    ensures |l| - |Deletes(n, l, m.ports)| == |Unowned(st.nlbs[n].services, PortKeys(m)).Keys|
  {
    var deletes := Deletes(n, l, m.ports);
    DeletesEffect(n, st.nlbs[n], l, m);
    forall i | 0 <= i < |deletes| ensures deletes[i].StaysOn(n) { assert deletes[i] in deletes; }
    ExecOnOne(st, n, deletes);
  }

  lemma LastCallEffect(st: CloudState, n: string, remaining: int, external: bool)
    requires n in st.nlbs
    ensures ExecAll(st, LastCall(n, remaining, external)) ==
            if remaining == 0 && !external then st.(nlbs := Without(st.nlbs, n)) else st
  {
    var last := LastCall(n, remaining, external);
    if last != [] {
      ExecSnoc(st, [], last[0]);
      assert [] + last == last && ExecAll(st, []) == st;
    }
  }

  lemma WithdrawWhole(st: CloudState, n: string, l: seq<LBService>, m: Manifest, external: bool)
    requires st.Valid() && n in st.nlbs && Lists(l, st.nlbs[n].services) && UniquePorts(m)
    ensures Withdrawn(st, n, PortKeys(m), external, ExecAll(st, WithdrawPlan(n, l, m, external)))
  {
    var remaining := |l| - |Deletes(n, l, m.ports)|;
    var left := Unowned(st.nlbs[n].services, PortKeys(m));
    var st1 := st.(nlbs := st.nlbs[n := st.nlbs[n].(services := left)]);
    DeletesOnCloud(st, n, l, m);
    ExecAppend(st, Deletes(n, l, m.ports), LastCall(n, remaining, external));
    LastCallEffect(st1, n, remaining, external);
    RemoveUpdated(st.nlbs, n, st1.nlbs[n]);
  }

  lemma RemoveUpdated(nlbs: map<string, NLB>, n: string, nlb: NLB)
    requires n in nlbs
    ensures Without(nlbs[n := nlb], n) == Without(nlbs, n)
  {}

  lemma WithdrawExact(st: CloudState, m: Manifest, a: Annotations, st': CloudState, issued: seq<Call>)
    requires st.Valid() && UniquePorts(m) && IdOf(a) != "" && IdOf(a) in st.nlbs
    requires WithdrawRan(st, m, a, st', issued, true)
    ensures Withdrawn(st, IdOf(a), PortKeys(m), IsExternal(a), st')
  {
    var n, external := IdOf(a), IsExternal(a);
    var l :| Lists(l, st.nlbs[n].services) && Ran(st, WithdrawPlan(n, l, m, external), st', issued, true);
    WithdrawWhole(st, n, l, m, external);
  }

  /** Ensuring and deleting on an external NLB takes the owned services away and no others. */
  lemma EnsureThenUnowned(before: NLB, after: NLB, spec: Spec, m: Manifest)
    requires spec.external && KeysOf(spec.services) == PortKeys(m) && Converged(before, after, spec)
    ensures Unowned(after.services, PortKeys(m)) == Unowned(before.services, PortKeys(m))
  {
    var keys := PortKeys(m);
    forall k ensures Find(Unowned(after.services, keys), k) == Find(Unowned(before.services, keys), k) {
      if k in keys { OwnedWhenWanted(m, k); } else { assert SameAt(before, after, k); }
    }
    SameFinds(Unowned(after.services, keys), Unowned(before.services, keys));
  }

  lemma AllOwnedWhenExact(s: Services, m: Manifest)
    requires s.Keys == PortKeys(m)
    ensures Unowned(s, PortKeys(m)).Keys == {}
  {
    forall k | k in s ensures Owned(k, PortKeys(m)) { OwnedWhenWanted(m, k); }
    EmptyWhenAllOwned(s, PortKeys(m));
  }

  /** Ensuring, then deleting: an NLB of the controller's own is gone, an external one is left
      with the services it had, less those at the ports of this Service. */
  lemma EnsureDeleteRoundTrip(m: Manifest, a: Annotations, parsers: Parsers, id: string,
                              st: CloudState, st1: CloudState, st2: CloudState, issued1: seq<Call>, issued2: seq<Call>)
    requires st.Valid() && st1.Valid() && UniquePorts(m) && Build(m, a, parsers).Ok?
    requires IdOf(a) == EnsuredId(st, id) && IdOf(a) != ""
    requires EnsureRan(st, Build(m, a, parsers), id, st1, issued1, true)
    requires WithdrawRan(st1, m, a, st2, issued2, true)
    ensures !IsExternal(a) ==> IdOf(a) !in st2.nlbs
    ensures IsExternal(a) ==> IdOf(a) in st.nlbs && IdOf(a) in st2.nlbs
                              && st2.nlbs[IdOf(a)].services == Unowned(st.nlbs[IdOf(a)].services, PortKeys(m))
  {
    var spec, n := Build(m, a, parsers).value, IdOf(a);
    BuildFaithful(m, a, parsers);
    assert Withdrawn(st1, n, PortKeys(m), IsExternal(a), st2) by {
      EnsureConverges(st, spec, id, st1, issued1);
      WithdrawExact(st1, m, a, st2, issued2);
    }
    if IsExternal(a) {
      assert Converged(st.nlbs[n], st1.nlbs[n], spec) by { EnsureConverges(st, spec, id, st1, issued1); }
      EnsureThenUnowned(st.nlbs[n], st1.nlbs[n], spec, m);
    } else {
      assert st1.nlbs[n].services.Keys == PortKeys(m) by { EnsureConverges(st, spec, id, st1, issued1); }
      AllOwnedWhenExact(st1.nlbs[n].services, m);
    }
  }

  lemma SameFinds(a: Services, b: Services)
    requires forall k :: Find(a, k) == Find(b, k)
    ensures a == b
  {
    forall k ensures k in a <==> k in b { assert Find(a, k) == Find(b, k); }
    forall k | k in a ensures a[k] == b[k] { assert Find(a, k) == Find(b, k); }
  }

  // ----- Services that share one external NLB -----------------------------------------------

  datatype Kind = Reconciled | Deleted

  /** A run by Service number `owner`, with the annotations it worked from. */
  datatype Event = Event(owner: nat, kind: Kind, annotations: Annotations, issued: seq<Call>, ok: bool)

  ghost predicate SharedStep(ms: seq<Manifest>, n: string, parsers: Parsers, st: CloudState, e: Event, st': CloudState) {
    && e.owner < |ms| && UniquePorts(ms[e.owner])
    && IsExternal(e.annotations) && IdOf(e.annotations) == n
    && (if e.kind.Reconciled?
        then UpdateRan(st, Build(ms[e.owner], e.annotations, parsers), n, st', e.issued, e.ok)
        else WithdrawRan(st, ms[e.owner], e.annotations, st', e.issued, e.ok))
  }

  /** An Ensure run on an external NLB never creates one: it is a reconciliation, and so a step of
      a shared history. */
  lemma ExternalEnsureIsShared(ms: seq<Manifest>, n: string, parsers: Parsers, st: CloudState, e: Event, st': CloudState)
    requires e.owner < |ms| && UniquePorts(ms[e.owner]) && e.kind.Reconciled?
    requires IsExternal(e.annotations) && IdOf(e.annotations) == n
    requires EnsureRan(st, Build(ms[e.owner], e.annotations, parsers), n, st', e.issued, e.ok)
    ensures SharedStep(ms, n, parsers, st, e, st')
  {}

  ghost predicate SharedHistory(ms: seq<Manifest>, n: string, parsers: Parsers, sts: seq<CloudState>, es: seq<Event>) {
    && |sts| == |es| + 1
    && sts[0].Valid() && n != "" && n in sts[0].nlbs
    && (forall e | e in es :: e.owner < |ms|)
    && forall i | 0 <= i < |es| :: SharedStep(ms, n, parsers, sts[i], es[i], sts[i + 1])
  }

  /** No run of the history may change the key. */
  ghost predicate Untouched(ms: seq<Manifest>, es: seq<Event>, k: Key) {
    forall e | e in es :: e.owner < |ms| ==> !MayTouch(ms[e.owner], e.kind, k)
  }

  /** What a successful run leaves at the keys of its own Service. */
  ghost predicate Achieved(m: Manifest, parsers: Parsers, e: Event, nlb: NLB) {
    if e.kind.Reconciled? then
      Build(m, e.annotations, parsers).Ok?
      && forall d | d in Build(m, e.annotations, parsers).value.services :: Provides(nlb, d)
    else forall k | k in nlb.services :: !Owned(k, PortKeys(m))
  }

  /** The keys a run of this kind may change: a delete run reads protocols without case. */
  predicate MayTouch(m: Manifest, kind: Kind, k: Key) {
    if kind.Reconciled? then k in PortKeys(m) else Owned(k, PortKeys(m))
  }

  lemma TouchesOwn(m: Manifest, kind: Kind, k: Key)
    requires MayTouch(m, kind, k)
    ensures Owned(k, PortKeys(m))
  {
    if kind.Reconciled? { OwnedWhenWanted(m, k); }
  }

  /** The API spells protocols in lower case, and so does the controller when it adds one. */
  predicate Canonical(k: Key) {
    Lower(k.protocol) == k.protocol
  }

  lemma PortKeysCanonical(m: Manifest, k: Key)
    requires k in PortKeys(m)
    ensures Canonical(k)
  {
    var i :| 0 <= i < |m.ports| && PortKey(m.ports[i]) == k;
    LowerIdempotent(m.ports[i].protocol);
  }

  ghost predicate NewKeysCanonical(before: NLB, after: NLB) {
    forall k | k in after.services && k !in before.services :: Canonical(k)
  }

  /** The NLB record and the other NLBs stay, and only keys of the Service may change. */
  ghost predicate Contained(n: string, m: Manifest, kind: Kind, st: CloudState, st': CloudState) {
    && n in st.nlbs && n in st'.nlbs && st'.Valid()
    && st' == st.(nlbs := st.nlbs[n := st'.nlbs[n]])
    && st'.nlbs[n].name == st.nlbs[n].name && st'.nlbs[n].description == st.nlbs[n].description
    && st'.nlbs[n].ip == st.nlbs[n].ip
    && (forall k | !MayTouch(m, kind, k) :: SameAt(st.nlbs[n], st'.nlbs[n], k))
    && NewKeysCanonical(st.nlbs[n], st'.nlbs[n])
  }

  lemma TouchedCanonical(m: Manifest, before: NLB, after: NLB)
    requires forall k | k !in PortKeys(m) :: SameAt(before, after, k)
    ensures NewKeysCanonical(before, after)
  {
    forall k | k in after.services && k !in before.services ensures Canonical(k) {
      assert SameAt(before, after, k) ==> k in before.services;
      PortKeysCanonical(m, k);
    }
  }

  lemma ReconcileContained(m: Manifest, n: string, parsers: Parsers, st: CloudState, e: Event, st': CloudState)
    requires st.Valid() && n in st.nlbs && UniquePorts(m) && IsExternal(e.annotations)
    requires UpdateRan(st, Build(m, e.annotations, parsers), n, st', e.issued, e.ok) && e.kind.Reconciled?
    ensures Contained(n, m, e.kind, st, st')
    ensures forall c | c in e.issued :: c.IsServiceCall() && c.nlb == n
    ensures e.ok ==> Achieved(m, parsers, e, st'.nlbs[n])
  {
    BuildFaithful(m, e.annotations, parsers);
    if Build(m, e.annotations, parsers).Err? {
      assert st.nlbs[n := st.nlbs[n]] == st.nlbs;
      return;
    }
    var spec := Build(m, e.annotations, parsers).value;
    UpdateSafe(st, spec, n, st', e.issued, e.ok);
    TouchedCanonical(m, st.nlbs[n], st'.nlbs[n]);
    if e.ok {
      UpdateConverges(st, spec, n, st', e.issued);
      ProvidesAll(st.nlbs[n], st'.nlbs[n], spec);
    }
  }

  lemma WithdrawContained(m: Manifest, n: string, parsers: Parsers, st: CloudState, e: Event, st': CloudState)
    requires st.Valid() && n != "" && n in st.nlbs && UniquePorts(m)
    requires IsExternal(e.annotations) && IdOf(e.annotations) == n && e.kind.Deleted?
    requires WithdrawRan(st, m, e.annotations, st', e.issued, e.ok)
    ensures Contained(n, m, e.kind, st, st')
    ensures forall c | c in e.issued :: c.IsServiceCall() && c.nlb == n
    ensures e.ok ==> Achieved(m, parsers, e, st'.nlbs[n])
  {
    if !e.ok && e.issued == [] && st' == st {
      assert st.nlbs[n := st.nlbs[n]] == st.nlbs;
    } else {
      var l :| Lists(l, st.nlbs[n].services) && Ran(st, WithdrawPlan(n, l, m, true), st', e.issued, e.ok);
      DeletePrefix(n, st, l, m, st', e.issued, e.ok);
      if e.ok { WithdrawExact(st, m, e.annotations, st', e.issued); }
    }
  }

  lemma {:induction false} DeletesShrink(nlb: NLB, calls: seq<Call>)
    requires forall i | 0 <= i < |calls| :: calls[i].DeleteService?
    ensures RunOn(nlb, calls).services.Keys <= nlb.services.Keys
    decreases |calls|
  {
    if calls != [] { DeletesShrink(Apply(nlb, calls[0]), calls[1..]); }
  }

  /** Part of a delete run on an external NLB: it deletes owned services and nothing else. */
  lemma DeletePart(n: string, st: CloudState, l: seq<LBService>, m: Manifest, effective: seq<Call>)
    requires st.Valid() && n in st.nlbs && Lists(l, st.nlbs[n].services) && UniquePorts(m)
    requires effective <= Deletes(n, l, m.ports)
    ensures Contained(n, m, Deleted, st, ExecAll(st, effective))
  {
    var nlb, owned := st.nlbs[n], set k | k in st.nlbs[n].services && Owned(k, PortKeys(m));
    forall i | 0 <= i < |effective|
      ensures Allowed(n, nlb, owned, true, effective[i]) && effective[i].StaysOn(n) && effective[i].DeleteService?
    {
      assert effective[i] == Deletes(n, l, m.ports)[i];
      DeletesTarget(n, l, m, effective[i], nlb.services);
    }
    AllowedRun(n, nlb, nlb, owned, true, effective);
    DeletesShrink(nlb, effective);
    ExecOnOne(st, n, effective);
    ValidAlong(st, effective);
  }

  lemma DeletePrefix(n: string, st: CloudState, l: seq<LBService>, m: Manifest,
                     st': CloudState, issued: seq<Call>, ok: bool)
    requires st.Valid() && n in st.nlbs && Lists(l, st.nlbs[n].services) && UniquePorts(m)
    requires Ran(st, WithdrawPlan(n, l, m, true), st', issued, ok)
    ensures Contained(n, m, Deleted, st, st')
    ensures forall c | c in issued :: c.IsServiceCall() && c.nlb == n
  {
    var plan := WithdrawPlan(n, l, m, true);
    assert plan == Deletes(n, l, m.ports);
    EffectiveRan(st, plan, st', issued, ok);
    DeletePart(n, st, l, m, Effective(st, st', issued));
    forall c | c in issued ensures c.IsServiceCall() && c.nlb == n {
      var i :| 0 <= i < |issued| && issued[i] == c;
      assert plan[i] == c;
      DeletesTarget(n, l, m, c, st.nlbs[n].services);
    }
  }

  lemma {:induction false} DeletesTarget(n: string, l: seq<LBService>, m: Manifest, c: Call, s: Services)
    requires UniquePorts(m) && Enumerates(l, s) && c in Deletes(n, l, m.ports)
    ensures c.DeleteService? && c.nlb == n
            && exists k :: k in s && s[k].id == c.service && Owned(k, PortKeys(m))
    decreases |l|
  {
    if l != [] {
      DeletesForExact(n, l[0], m);
      var k := l[0].content.ServiceKey();
      assert s[k] == l[0];
      if c !in DeletesFor(n, l[0], m.ports) { DeletesTarget(n, l[1..], m, c, s); }
    }
  }

  lemma SharedStepContained(ms: seq<Manifest>, n: string, parsers: Parsers, st: CloudState, e: Event, st': CloudState)
    requires st.Valid() && n != "" && n in st.nlbs && SharedStep(ms, n, parsers, st, e, st')
    ensures Contained(n, ms[e.owner], e.kind, st, st')
    ensures forall c | c in e.issued :: c.IsServiceCall() && c.nlb == n
    ensures e.ok ==> Achieved(ms[e.owner], parsers, e, st'.nlbs[n])
  {
    if e.kind.Reconciled? {
      ReconcileContained(ms[e.owner], n, parsers, st, e, st');
    } else {
      WithdrawContained(ms[e.owner], n, parsers, st, e, st');
    }
  }

  /** From `st` to `st'` only the services of NLB `n` changed, and only at touched keys. */
  ghost predicate Spared(ms: seq<Manifest>, n: string, st: CloudState, st': CloudState, es: seq<Event>) {
    && n in st.nlbs && n in st'.nlbs && st'.Valid()
    && st' == st.(nlbs := st.nlbs[n := st'.nlbs[n]])
    && st'.nlbs[n].name == st.nlbs[n].name && st'.nlbs[n].description == st.nlbs[n].description
    && st'.nlbs[n].ip == st.nlbs[n].ip
    && (forall k | Untouched(ms, es, k) :: SameAt(st.nlbs[n], st'.nlbs[n], k))
    && NewKeysCanonical(st.nlbs[n], st'.nlbs[n])
  }

  lemma SparedOneMore(ms: seq<Manifest>, n: string, st: CloudState, st1: CloudState, st2: CloudState,
                      es: seq<Event>, e: Event)
    requires e.owner < |ms|
    requires Spared(ms, n, st, st1, es) && Contained(n, ms[e.owner], e.kind, st1, st2)
    ensures Spared(ms, n, st, st2, es + [e])
  {
    forall k | Untouched(ms, es + [e], k)
      ensures SameAt(st.nlbs[n], st2.nlbs[n], k)
    {
      assert e in es + [e];
      assert Untouched(ms, es, k);
      assert SameAt(st.nlbs[n], st1.nlbs[n], k) && SameAt(st1.nlbs[n], st2.nlbs[n], k);
    }
  }

  lemma HistoryPart(ms: seq<Manifest>, n: string, parsers: Parsers, sts: seq<CloudState>, es: seq<Event>, j: nat)
    requires SharedHistory(ms, n, parsers, sts, es) && j <= |es|
    ensures SharedHistory(ms, n, parsers, sts[..j + 1], es[..j])
    ensures sts[j].Valid() && n in sts[j].nlbs ==> SharedHistory(ms, n, parsers, sts[j..], es[j..])
  {
    forall i | 0 <= i < j ensures SharedStep(ms, n, parsers, sts[..j + 1][i], es[..j][i], sts[..j + 1][i + 1]) {
      assert SharedStep(ms, n, parsers, sts[i], es[i], sts[i + 1]);
    }
    var tail, after := sts[j..], es[j..];
    forall i | 0 <= i < |after| ensures SharedStep(ms, n, parsers, tail[i], after[i], tail[i + 1]) {
      assert SharedStep(ms, n, parsers, sts[j + i], es[j + i], sts[j + i + 1]);
    }
    forall e | e in after ensures e.owner < |ms| { assert e in es; }
  }

  /** Non-interference: over any history of runs, interrupted anywhere, a key is changed only
      if some run of a Service with that port took place; the other NLBs and the shared
      NLB's own fields never change, and no NLB is created, updated or deleted. */
  lemma {:induction false} NonInterference(ms: seq<Manifest>, n: string, parsers: Parsers, sts: seq<CloudState>, es: seq<Event>)
    requires SharedHistory(ms, n, parsers, sts, es)
    ensures Spared(ms, n, sts[0], sts[|es|], es)
    ensures forall e, c | e in es && c in e.issued :: c.IsServiceCall() && c.nlb == n
    decreases |es|
  {
    if es == [] {
      assert sts[0].nlbs[n := sts[0].nlbs[n]] == sts[0].nlbs;
    } else {
      var i := |es| - 1;
      var before, e := es[..i], es[i];
      assert es == before + [e];
      HistoryPart(ms, n, parsers, sts, es, i);
      NonInterference(ms, n, parsers, sts[..i + 1], before);
      assert SharedStep(ms, n, parsers, sts[i], e, sts[i + 1]);
      SharedStepContained(ms, n, parsers, sts[i], e, sts[i + 1]);
      SparedOneMore(ms, n, sts[0], sts[i], sts[i + 1], before, e);
    }
  }

  ghost predicate DisjointPorts(ms: seq<Manifest>) {
    forall i, j | 0 <= i < j < |ms| :: PortKeys(ms[i]) !! PortKeys(ms[j])
  }

  /** The run at `j` is the last one of its Service, and it succeeded. */
  ghost predicate LastWord(es: seq<Event>, j: nat) {
    j < |es| && es[j] in es && es[j].ok && forall i | j < i < |es| :: es[i].owner != es[j].owner
  }

  /** Runs of Services with other ports do not touch the keys of Service `o`. */
  lemma OthersSpare(ms: seq<Manifest>, es: seq<Event>, o: nat, k: Key)
    requires DisjointPorts(ms) && o < |ms| && Owned(k, PortKeys(ms[o]))
    requires forall f | f in es :: f.owner < |ms| && f.owner != o
    ensures Untouched(ms, es, k)
  {
    forall f | f in es ensures !MayTouch(ms[f.owner], f.kind, k) {
      assert PortKeys(ms[f.owner]) !! PortKeys(ms[o]);
      if MayTouch(ms[f.owner], f.kind, k) { TouchesOwn(ms[f.owner], f.kind, k); }
    }
  }

  /** Any run of a history starts from a valid state and is contained. */
  lemma RunOfHistory(ms: seq<Manifest>, n: string, parsers: Parsers, sts: seq<CloudState>, es: seq<Event>, j: nat)
    requires SharedHistory(ms, n, parsers, sts, es) && j < |es|
    ensures es[j].owner < |ms| && Contained(n, ms[es[j].owner], es[j].kind, sts[j], sts[j + 1])
    ensures es[j].ok ==> Achieved(ms[es[j].owner], parsers, es[j], sts[j + 1].nlbs[n])
  {
    HistoryPart(ms, n, parsers, sts, es, j);
    NonInterference(ms, n, parsers, sts[..j + 1], es[..j]);
    assert SharedStep(ms, n, parsers, sts[j], es[j], sts[j + 1]);
    SharedStepContained(ms, n, parsers, sts[j], es[j], sts[j + 1]);
  }

  /** From some point on, no run of Service `o`: its keys stay as they are. */
  lemma RestSpares(ms: seq<Manifest>, n: string, parsers: Parsers, sts: seq<CloudState>, es: seq<Event>, o: nat)
    requires SharedHistory(ms, n, parsers, sts, es) && DisjointPorts(ms) && o < |ms|
    requires forall i | 0 <= i < |es| :: es[i].owner != o
    ensures n in sts[0].nlbs && n in sts[|es|].nlbs
    ensures forall k | Owned(k, PortKeys(ms[o])) :: SameAt(sts[0].nlbs[n], sts[|es|].nlbs[n], k)
  {
    NonInterference(ms, n, parsers, sts, es);
    forall k | Owned(k, PortKeys(ms[o])) ensures SameAt(sts[0].nlbs[n], sts[|es|].nlbs[n], k) {
      OthersSpare(ms, es, o, k);
    }
  }

  /** Whatever the other Services do afterwards, a Service whose last run succeeded has what
      that run asked for. */
  lemma LastWordStands(ms: seq<Manifest>, n: string, parsers: Parsers, sts: seq<CloudState>, es: seq<Event>, j: nat)
    requires SharedHistory(ms, n, parsers, sts, es) && DisjointPorts(ms) && LastWord(es, j)
    ensures n in sts[|es|].nlbs && Achieved(ms[es[j].owner], parsers, es[j], sts[|es|].nlbs[n])
  {
    RunOfHistory(ms, n, parsers, sts, es, j);
    HistoryPart(ms, n, parsers, sts, es, j + 1);
    RestSpares(ms, n, parsers, sts[j + 1..], es[j + 1..], es[j].owner);
    KeysKeep(ms[es[j].owner], parsers, es[j], sts[j + 1].nlbs[n], sts[|es|].nlbs[n]);
  }

  /** What a run achieved depends only on the keys its Service owns. */
  lemma KeysKeep(m: Manifest, parsers: Parsers, e: Event, mid: NLB, last: NLB)
    requires Achieved(m, parsers, e, mid)
    requires forall k | Owned(k, PortKeys(m)) :: SameAt(mid, last, k)
    ensures Achieved(m, parsers, e, last)
  {
    BuildFaithful(m, e.annotations, parsers);
    if e.kind.Reconciled? {
      var ds := Build(m, e.annotations, parsers).value.services;
      forall d | d in ds ensures Provides(last, d) {
        var i :| 0 <= i < |ds| && ds[i] == d;
        OwnedWhenWanted(m, ds[i].ServiceKey());
        assert SameAt(mid, last, d.ServiceKey());
      }
    } else {
      forall k | k in last.services ensures !Owned(k, PortKeys(m)) {
        assert Owned(k, PortKeys(m)) ==> SameAt(mid, last, k);
      }
    }
  }

  /** What a run aims at: the desired services, or, for a delete run, none at all. */
  ghost predicate Aims(m: Manifest, parsers: Parsers, e: Event, target: Option<seq<Content>>) {
    match target
    case None => e.kind.Deleted?
    case Some(ds) =>
      e.kind.Reconciled? && Build(m, e.annotations, parsers).Ok? && Build(m, e.annotations, parsers).value.services == ds
  }

  /** The last run of Service `o` succeeded, and aimed at `target`. */
  ghost predicate SettledOn(ms: seq<Manifest>, parsers: Parsers, es: seq<Event>, o: nat, target: Option<seq<Content>>) {
    o < |ms| && exists j: nat :: LastWord(es, j) && es[j].owner == o && Aims(ms[o], parsers, es[j], target)
  }

  /** A history of reconciliations and deletions in which every Service that takes part has the
      last word on its own ports, and Service `o` settles on `targets[o]`. */
  ghost predicate EndsOn(ms: seq<Manifest>, n: string, parsers: Parsers, sts: seq<CloudState>, es: seq<Event>,
                         targets: seq<Option<seq<Content>>>) {
    && SharedHistory(ms, n, parsers, sts, es) && |targets| == |ms|
    && forall e | e in es :: SettledOn(ms, parsers, es, e.owner, targets[e.owner])
  }

  ghost predicate TakesPart(es: seq<Event>, o: nat) {
    exists e :: e in es && e.owner == o
  }

  /** The NLB has at `k` what the target says. */
  ghost predicate MeetsAt(nlb: NLB, k: Key, target: Option<seq<Content>>) {
    match target
    case None => k !in nlb.services
    case Some(ds) => UniqueKeys(ds) && exists d :: d in ds && d.ServiceKey() == k && Provides(nlb, d)
  }

  lemma AchievedMeets(m: Manifest, parsers: Parsers, e: Event, nlb: NLB, target: Option<seq<Content>>, k: Key)
    requires UniquePorts(m) && k in PortKeys(m) && Aims(m, parsers, e, target) && Achieved(m, parsers, e, nlb)
    ensures MeetsAt(nlb, k, target)
  {
    OwnedWhenWanted(m, k);
    if target.Some? {
      var ds := target.value;
      BuildFaithful(m, e.annotations, parsers);
      var i :| 0 <= i < |ds| && ds[i].ServiceKey() == k;
      assert ds[i] in ds && Provides(nlb, ds[i]);
    }
  }

  lemma SettledMeets(ms: seq<Manifest>, n: string, parsers: Parsers, sts: seq<CloudState>, es: seq<Event>,
                     targets: seq<Option<seq<Content>>>, o: nat, k: Key)
    requires EndsOn(ms, n, parsers, sts, es, targets) && DisjointPorts(ms) && TakesPart(es, o)
    requires o < |ms| && k in PortKeys(ms[o])
    ensures n in sts[|es|].nlbs && MeetsAt(sts[|es|].nlbs[n], k, targets[o])
  {
    var j: nat :| LastWord(es, j) && es[j].owner == o && Aims(ms[o], parsers, es[j], targets[o]);
    assert SharedStep(ms, n, parsers, sts[j], es[j], sts[j + 1]);
    LastWordStands(ms, n, parsers, sts, es, j);
    AchievedMeets(ms[o], parsers, es[j], sts[|es|].nlbs[n], targets[o], k);
  }

  lemma UniqueAt(ds: seq<Content>, d: Content, e: Content)
    requires UniqueKeys(ds) && d in ds && e in ds && d.ServiceKey() == e.ServiceKey()
    ensures d == e
  {
    var i :| 0 <= i < |ds| && ds[i] == d;
    var j :| 0 <= j < |ds| && ds[j] == e;
  }

  ghost predicate AlikeAt(a: NLB, b: NLB, k: Key) {
    && (k in a.services <==> k in b.services)
    && (k in a.services ==> a.services[k].content.Normal() == b.services[k].content.Normal())
  }

  lemma AlikeEverywhere(a: NLB, b: NLB)
    requires forall k :: AlikeAt(a, b, k)
    ensures a.View() == b.View()
  {
    forall k ensures k in a.View() <==> k in b.View() { assert AlikeAt(a, b, k); }
    forall k | k in a.View() ensures a.View()[k] == b.View()[k] { assert AlikeAt(a, b, k); }
  }

  lemma MeetingIsAlike(a: NLB, b: NLB, k: Key, target: Option<seq<Content>>)
    requires MeetsAt(a, k, target) && MeetsAt(b, k, target)
    ensures AlikeAt(a, b, k)
  {
    if target.Some? {
      var d :| d in target.value && d.ServiceKey() == k && Provides(a, d);
      var e :| e in target.value && e.ServiceKey() == k && Provides(b, e);
      UniqueAt(target.value, d, e);
    }
  }

  /** A key in the API's spelling that none of the participants asks for is untouched. */
  lemma ForeignUntouched(ms: seq<Manifest>, es: seq<Event>, k: Key)
    requires Canonical(k)
    requires forall o: nat | o < |ms| && TakesPart(es, o) :: k !in PortKeys(ms[o])
    ensures Untouched(ms, es, k)
  {
    assert forall e | e in es :: TakesPart(es, e.owner);
  }

  /** Keys spelled otherwise are left alone, as far as there are any. */
  ghost predicate OddKeysUntouched(ms: seq<Manifest>, nlb: NLB, es: seq<Event>) {
    forall k | k in nlb.services && !Canonical(k) :: Untouched(ms, es, k)
  }

  lemma UntouchedAlike(ms: seq<Manifest>, n: string, parsers: Parsers, sts: seq<CloudState>, es: seq<Event>, k: Key)
    requires SharedHistory(ms, n, parsers, sts, es)
    requires Untouched(ms, es, k) || (!Canonical(k) && OddKeysUntouched(ms, sts[0].nlbs[n], es))
    ensures n in sts[0].nlbs && n in sts[|es|].nlbs && SameAt(sts[0].nlbs[n], sts[|es|].nlbs[n], k)
  {
    NonInterference(ms, n, parsers, sts, es);
    if !Untouched(ms, es, k) {
      assert k !in sts[0].nlbs[n].services && k !in sts[|es|].nlbs[n].services;
    }
  }

  lemma SettledAt(ms: seq<Manifest>, n: string, parsers: Parsers, sts1: seq<CloudState>, es1: seq<Event>,
                  sts2: seq<CloudState>, es2: seq<Event>, targets: seq<Option<seq<Content>>>, k: Key)
    requires EndsOn(ms, n, parsers, sts1, es1, targets) && EndsOn(ms, n, parsers, sts2, es2, targets)
    requires DisjointPorts(ms) && sts1[0].nlbs[n] == sts2[0].nlbs[n]
    requires forall o: nat :: TakesPart(es1, o) <==> TakesPart(es2, o)
    requires OddKeysUntouched(ms, sts1[0].nlbs[n], es1) && OddKeysUntouched(ms, sts1[0].nlbs[n], es2)
    requires n in sts1[|es1|].nlbs && n in sts2[|es2|].nlbs
    ensures AlikeAt(sts1[|es1|].nlbs[n], sts2[|es2|].nlbs[n], k)
  {
    if o: nat :| o < |ms| && TakesPart(es1, o) && k in PortKeys(ms[o]) {
      SettledMeets(ms, n, parsers, sts1, es1, targets, o, k);
      SettledMeets(ms, n, parsers, sts2, es2, targets, o, k);
      MeetingIsAlike(sts1[|es1|].nlbs[n], sts2[|es2|].nlbs[n], k, targets[o]);
    } else {
      if Canonical(k) {
        ForeignUntouched(ms, es1, k);
        ForeignUntouched(ms, es2, k);
      }
      UntouchedAlike(ms, n, parsers, sts1, es1, k);
      UntouchedAlike(ms, n, parsers, sts2, es2, k);
    }
  }

  lemma StaysLive(ms: seq<Manifest>, n: string, parsers: Parsers, sts: seq<CloudState>, es: seq<Event>)
    requires SharedHistory(ms, n, parsers, sts, es)
    ensures |sts| == |es| + 1 && n in sts[0].nlbs && n in sts[|es|].nlbs
  {
    NonInterference(ms, n, parsers, sts, es);
  }

  /** Order independence: two histories from the same shared NLB, with the same participants
      and the same last words, be they reconciliations or deletions, in whatever order and with
      whatever happened before, end alike. */
  lemma OrderIndependence(ms: seq<Manifest>, n: string, parsers: Parsers, sts1: seq<CloudState>, es1: seq<Event>,
                          sts2: seq<CloudState>, es2: seq<Event>, targets: seq<Option<seq<Content>>>)
    requires EndsOn(ms, n, parsers, sts1, es1, targets) && EndsOn(ms, n, parsers, sts2, es2, targets)
    requires DisjointPorts(ms) && sts1[0].nlbs[n] == sts2[0].nlbs[n]
    requires forall o: nat :: TakesPart(es1, o) <==> TakesPart(es2, o)
    requires OddKeysUntouched(ms, sts1[0].nlbs[n], es1) && OddKeysUntouched(ms, sts1[0].nlbs[n], es2)
    ensures n in sts1[|es1|].nlbs && n in sts2[|es2|].nlbs
    ensures sts1[|es1|].nlbs[n].View() == sts2[|es2|].nlbs[n].View()
  {
    StaysLive(ms, n, parsers, sts1, es1);
    StaysLive(ms, n, parsers, sts2, es2);
    forall k ensures AlikeAt(sts1[|es1|].nlbs[n], sts2[|es2|].nlbs[n], k) {
      SettledAt(ms, n, parsers, sts1, es1, sts2, es2, targets, k);
    }
    AlikeEverywhere(sts1[|es1|].nlbs[n], sts2[|es2|].nlbs[n]);
  }

  /** Without delete runs there is nothing to ask of odd keys. */
  lemma OddKeysOfReconciliations(ms: seq<Manifest>, nlb: NLB, es: seq<Event>)
    requires forall e | e in es :: e.kind.Reconciled?
    ensures OddKeysUntouched(ms, nlb, es)
  {
    forall k, e | !Canonical(k) && e in es && e.owner < |ms| ensures !MayTouch(ms[e.owner], e.kind, k) {
      if MayTouch(ms[e.owner], e.kind, k) { PortKeysCanonical(ms[e.owner], k); }
    }
  }
}
