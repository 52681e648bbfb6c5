/** Histories of delete runs on one NLB. */
module Deletions {
  import opened Prelude
  import opened LoadBalancerApi
  import opened UpdatePlan
  import opened UpdateTheorems
  import opened ServiceSpec
  import opened LoadBalancers
  import opened Withdrawal
  import opened Histories

  /** Interrupted and successful delete runs of one Service, one after the other. */
  ghost predicate Withdrawals(sts: seq<CloudState>, m: Manifest, a: Annotations, oks: seq<bool>, issued: seq<seq<Call>>) {
    && |sts| == |oks| + 1 && |issued| == |oks|
    && forall i | 0 <= i < |oks| :: WithdrawRan(sts[i], m, a, sts[i + 1], issued[i], oks[i])
  }

  /** How far delete runs that began at `st0` have come: some owned services are gone, and no
      other; or all services were owned and the NLB itself is gone. */
  ghost predicate Withdrawing(st0: CloudState, n: string, keys: set<Key>, external: bool, st: CloudState) {
    n in st0.nlbs && st.Valid()
    && var nlb0 := st0.nlbs[n];
       if n in st.nlbs then
         && st == st0.(nlbs := st0.nlbs[n := nlb0.(services := st.nlbs[n].services)])
         && Unowned(st.nlbs[n].services, keys) == Unowned(nlb0.services, keys)
       else
         !external && Unowned(nlb0.services, keys).Keys == {} && st == st0.(nlbs := Without(st0.nlbs, n))
  }

  lemma {:induction false} OwnedDeletes(nlb: NLB, calls: seq<Call>, keys: set<Key>)
    requires forall i | 0 <= i < |calls| :: calls[i].DeleteService?
    requires forall i, k | 0 <= i < |calls| && k in nlb.services && nlb.services[k].id == calls[i].service :: Owned(k, keys)
    ensures RunOn(nlb, calls) == nlb.(services := RunOn(nlb, calls).services)
    ensures Unowned(RunOn(nlb, calls).services, keys) == Unowned(nlb.services, keys)
    decreases |calls|
  {
    if calls != [] {
      var nlb1 := Apply(nlb, calls[0]);
      assert nlb1.services.Keys <= nlb.services.Keys;
      assert Unowned(nlb1.services, keys) == Unowned(nlb.services, keys);
      OwnedDeletes(nlb1, calls[1..], keys);
    }
  }

  /** Any part of the deletes takes owned services away, and nothing else happens. */
  lemma PartOfDeletes(st: CloudState, n: string, l: seq<LBService>, m: Manifest, effective: seq<Call>)
    requires st.Valid() && n in st.nlbs && Lists(l, st.nlbs[n].services) && UniquePorts(m)
    requires effective <= Deletes(n, l, m.ports)
    ensures var st' := ExecAll(st, effective);
            && st'.Valid() && n in st'.nlbs
            && st' == st.(nlbs := st.nlbs[n := st.nlbs[n].(services := st'.nlbs[n].services)])
            && Unowned(st'.nlbs[n].services, PortKeys(m)) == Unowned(st.nlbs[n].services, PortKeys(m))
  {
    var s := st.nlbs[n].services;
    forall i | 0 <= i < |effective|
      ensures effective[i].DeleteService? && effective[i].nlb == n
      ensures forall k | k in s && s[k].id == effective[i].service :: Owned(k, PortKeys(m))
    {
      assert effective[i] == Deletes(n, l, m.ports)[i];
      DeletesTarget(n, l, m, effective[i], s);
    }
    OwnedDeletes(st.nlbs[n], effective, PortKeys(m));
    ExecOnOne(st, n, effective);
    ValidAlong(st, effective);
  }

  /** A delete run never goes back on what the runs before it have done. */
  lemma WithdrawingOn(st0: CloudState, st: CloudState, n: string, m: Manifest, external: bool, st': CloudState)
    requires st0.Valid() && Withdrawing(st0, n, PortKeys(m), external, st) && n in st.nlbs
    requires Withdrawing(st, n, PortKeys(m), external, st')
    ensures Withdrawing(st0, n, PortKeys(m), external, st')
  {
    if n !in st'.nlbs { RemoveUpdated(st0.nlbs, n, st.nlbs[n]); }
  }

  lemma WithdrawnOn(st0: CloudState, st: CloudState, n: string, m: Manifest, external: bool, st': CloudState)
    requires st0.Valid() && Withdrawing(st0, n, PortKeys(m), external, st)
    requires if n in st.nlbs then Withdrawn(st, n, PortKeys(m), external, st') else st' == st
    ensures Withdrawn(st0, n, PortKeys(m), external, st')
  {
    if n in st.nlbs { RemoveUpdated(st0.nlbs, n, st.nlbs[n]); }
  }

  lemma WithdrawnIsWithdrawing(st: CloudState, n: string, m: Manifest, external: bool, st': CloudState)
    requires st.Valid() && st'.Valid() && Withdrawn(st, n, PortKeys(m), external, st')
    ensures Withdrawing(st, n, PortKeys(m), external, st')
  {}

  lemma NothingWithdrawn(st: CloudState, n: string, m: Manifest, external: bool)
    requires st.Valid() && n in st.nlbs
    ensures Withdrawing(st, n, PortKeys(m), external, st)
  {
    assert st.nlbs[n := st.nlbs[n]] == st.nlbs;
  }

  lemma PartOfPlan(st: CloudState, n: string, l: seq<LBService>, m: Manifest, external: bool, effective: seq<Call>)
    requires st.Valid() && n in st.nlbs && Lists(l, st.nlbs[n].services) && UniquePorts(m)
    requires effective <= WithdrawPlan(n, l, m, external)
    ensures Withdrawing(st, n, PortKeys(m), external, ExecAll(st, effective))
  {
    if |effective| <= |Deletes(n, l, m.ports)| {
      assert effective <= Deletes(n, l, m.ports);
      PartOfDeletes(st, n, l, m, effective);
    } else {
      assert effective == WithdrawPlan(n, l, m, external);
      WithdrawWhole(st, n, l, m, external);
      ValidAlong(st, effective);
      WithdrawnIsWithdrawing(st, n, m, external, ExecAll(st, effective));
    }
  }

  lemma OneRun(st: CloudState, m: Manifest, a: Annotations, st': CloudState, issued: seq<Call>, ok: bool)
    requires st.Valid() && UniquePorts(m) && IdOf(a) != "" && IdOf(a) in st.nlbs
    requires WithdrawRan(st, m, a, st', issued, ok)
    ensures Withdrawing(st, IdOf(a), PortKeys(m), IsExternal(a), st')
  {
    if !ok && issued == [] && st' == st {
      NothingWithdrawn(st, IdOf(a), m, IsExternal(a));
    } else {
      var l :| Lists(l, st.nlbs[IdOf(a)].services) && Ran(st, WithdrawPlan(IdOf(a), l, m, IsExternal(a)), st', issued, ok);
      PartOfPlan(st, IdOf(a), l, m, IsExternal(a), Effective(st, st', issued));
    }
  }

  lemma OneMoreRun(st0: CloudState, st: CloudState, m: Manifest, a: Annotations,
                   st': CloudState, issued: seq<Call>, ok: bool)
    requires st0.Valid() && UniquePorts(m) && IdOf(a) != ""
    requires Withdrawing(st0, IdOf(a), PortKeys(m), IsExternal(a), st) && WithdrawRan(st, m, a, st', issued, ok)
    ensures Withdrawing(st0, IdOf(a), PortKeys(m), IsExternal(a), st')
  {
    if IdOf(a) in st.nlbs {
      OneRun(st, m, a, st', issued, ok);
      WithdrawingOn(st0, st, IdOf(a), m, IsExternal(a), st');
    }
  }

  lemma WithdrawalsProgress(sts: seq<CloudState>, m: Manifest, a: Annotations,
                            oks: seq<bool>, issued: seq<seq<Call>>, j: nat)
    requires Withdrawals(sts, m, a, oks, issued) && UniquePorts(m) && j <= |oks|
    requires sts[0].Valid() && IdOf(a) != "" && IdOf(a) in sts[0].nlbs
    ensures Withdrawing(sts[0], IdOf(a), PortKeys(m), IsExternal(a), sts[j])
  {
    var reached := st => Withdrawing(sts[0], IdOf(a), PortKeys(m), IsExternal(a), st);
    assert reached(sts[0]) by { NothingWithdrawn(sts[0], IdOf(a), m, IsExternal(a)); }
    forall i | 0 < i < |sts| && reached(sts[i - 1]) ensures reached(sts[i]) {
      assert WithdrawRan(sts[i - 1], m, a, sts[i - 1 + 1], issued[i - 1], oks[i - 1]);
      OneMoreRun(sts[0], sts[i - 1], m, a, sts[i], issued[i - 1], oks[i - 1]);
    }
    Along(sts, reached, j);
    assert reached(sts[j]);
  }

  /** Retried deletion: after any delete runs cut short anywhere, one that succeeds leaves the
      whole API as a single faultless run from the initial state would have left it. */
  lemma DeleteRetry(sts: seq<CloudState>, m: Manifest, a: Annotations, oks: seq<bool>, issued: seq<seq<Call>>,
                    l0: seq<LBService>)
    requires Withdrawals(sts, m, a, oks, issued) && UniquePorts(m)
    requires sts[0].Valid() && IdOf(a) != "" && IdOf(a) in sts[0].nlbs && Lists(l0, sts[0].nlbs[IdOf(a)].services)
    requires oks != [] && oks[|oks| - 1]
    ensures sts[|oks|] == ExecAll(sts[0], WithdrawPlan(IdOf(a), l0, m, IsExternal(a)))
  {
    var i, n, external := |oks| - 1, IdOf(a), IsExternal(a);
    WithdrawalsProgress(sts, m, a, oks, issued, i);
    assert WithdrawRan(sts[i], m, a, sts[i + 1], issued[i], true);
    if n in sts[i].nlbs { WithdrawExact(sts[i], m, a, sts[i + 1], issued[i]); }
    WithdrawnOn(sts[0], sts[i], n, m, external, sts[i + 1]);
    WithdrawWhole(sts[0], n, l0, m, external);
  }
}
