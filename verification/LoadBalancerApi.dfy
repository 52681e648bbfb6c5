/** The state behind the load-balancer API, the mutating calls, and what each call does. */
module LoadBalancerApi {
  import opened Prelude
  import opened Naming

  /** An NLB holds at most one service per (port, protocol). */
  datatype Key = Key(port: int, protocol: string)

  datatype HealthCheck = HealthCheck(
    mode: string, port: int, uri: string, interval: int, timeout: int, retries: int)

  /** The part of an NLB service that a caller chooses. `pool` is None when the API returns no
      instance pool at all, which is not the same value as a pool with an empty ID. */
  datatype Content = Content(
    name: string, description: string, port: int, targetPort: int, protocol: string,
    strategy: string, healthcheck: Option<HealthCheck>, pool: Option<string>)
  {
    function ServiceKey(): Key { Key(port, protocol) }

    function PoolId(): string { pool.GetOr("") }

    /** Content up to the difference between no pool and a pool with an empty ID. */
    function Normal(): Content { this.(pool := Some(PoolId())) }
  }

  datatype LBService = LBService(
    id: nat, content: Content, state: string, healthcheckStatus: seq<string>)

  type Services = map<Key, LBService>

  datatype NLB = NLB(name: string, description: string, ip: string, services: Services, nextService: nat)
  {
    /** Service IDs are unique, and the API never hands out an ID twice. */
    ghost predicate WellFormed() {
      && (forall k | k in services ::
            services[k].content.ServiceKey() == k && services[k].id < nextService)
      && (forall j, k | j in services && k in services && services[j].id == services[k].id :: j == k)
    }

    ghost function View(): map<Key, Content> {
      map k | k in services :: services[k].content.Normal()
    }
  }

  datatype Call =
    | CreateNLB(name: string, description: string)
    | UpdateNLB(nlb: string, name: string, description: string)
    | DeleteNLB(nlb: string)
    | AddService(nlb: string, content: Content)
    | DeleteService(nlb: string, service: nat)
    | UpdateService(nlb: string, service: nat, content: Content)
  {
    /** Calls on the services of one NLB, as opposed to calls on NLBs themselves. */
    predicate IsServiceCall() {
      AddService? || DeleteService? || UpdateService?
    }

    /** Calls that leave every NLB but `n` alone and do not delete `n`. */
    predicate StaysOn(n: string) {
      (IsServiceCall() || UpdateNLB?) && nlb == n
    }
  }

  // ----- One NLB ---------------------------------------------------------------------------

  /** Whether the API accepts the call. An Add needs a free key; Update and Delete need the ID. */
  predicate Admits(nlb: NLB, c: Call) {
    match c
    case UpdateNLB(_, _, _) => true
    case AddService(_, content) => content.ServiceKey() !in nlb.services
    case DeleteService(_, id) => exists k :: k in nlb.services && nlb.services[k].id == id
    case UpdateService(_, id, content) =>
      content.ServiceKey() in nlb.services && nlb.services[content.ServiceKey()].id == id
    case CreateNLB(_, _) => false
    case DeleteNLB(_) => false
  }

  /** What an admitted call does; a call that is not admitted does nothing. An update request
      has no instance-pool field, so the stored pool stays. */
  function Apply(nlb: NLB, c: Call): NLB {
    if !Admits(nlb, c) then nlb else
    match c
    case UpdateNLB(_, name, description) => nlb.(name := name, description := description)
    case AddService(_, content) =>
      nlb.(services := nlb.services[content.ServiceKey() := LBService(nlb.nextService, content, "creating", [])],
           nextService := nlb.nextService + 1)
    case DeleteService(_, id) =>
      nlb.(services := map k | k in nlb.services && nlb.services[k].id != id :: nlb.services[k])
    case UpdateService(_, id, content) =>
      var k := content.ServiceKey();
      nlb.(services := nlb.services[k := nlb.services[k].(content := content.(pool := nlb.services[k].content.pool))])
    case _ => nlb
  }

  function RunOn(nlb: NLB, calls: seq<Call>): NLB
    decreases |calls|
  {
    if calls == [] then nlb else RunOn(Apply(nlb, calls[0]), calls[1..])
  }

  /** Every call of the sequence is admitted at the moment it is issued. */
  predicate AllAdmitted(nlb: NLB, calls: seq<Call>)
    decreases |calls|
  {
    calls == [] || (Admits(nlb, calls[0]) && AllAdmitted(Apply(nlb, calls[0]), calls[1..]))
  }

  lemma {:induction false} RunOnAppend(nlb: NLB, a: seq<Call>, b: seq<Call>)
    ensures RunOn(nlb, a + b) == RunOn(RunOn(nlb, a), b)
    ensures AllAdmitted(nlb, a + b) <==> AllAdmitted(nlb, a) && AllAdmitted(RunOn(nlb, a), b)
    decreases |a|
  {
    if a == [] {
      assert a + b == b;
    } else {
      assert (a + b)[1..] == a[1..] + b;
      RunOnAppend(Apply(nlb, a[0]), a[1..], b);
    }
  }

  lemma RunOnOne(nlb: NLB, c: Call)
    ensures RunOn(nlb, [c]) == Apply(nlb, c)
    ensures AllAdmitted(nlb, [c]) <==> Admits(nlb, c)
  {
    assert RunOn(Apply(nlb, c), []) == Apply(nlb, c);
  }

  lemma RunOnTwo(nlb: NLB, c: Call, d: Call)
    ensures RunOn(nlb, [c, d]) == Apply(Apply(nlb, c), d)
    ensures AllAdmitted(nlb, [c, d]) <==> Admits(nlb, c) && Admits(Apply(nlb, c), d)
  {
    assert [c, d][1..] == [d];
    RunOnOne(Apply(nlb, c), d);
  }

  lemma WellFormedKept(nlb: NLB, c: Call)
    requires nlb.WellFormed()
    ensures Apply(nlb, c).WellFormed()
  {}

  lemma {:induction false} WellFormedAlong(nlb: NLB, calls: seq<Call>)
    requires nlb.WellFormed()
    ensures RunOn(nlb, calls).WellFormed()
    decreases |calls|
  {
    if calls != [] {
      WellFormedKept(nlb, calls[0]);
      WellFormedAlong(Apply(nlb, calls[0]), calls[1..]);
    }
  }

  // ----- All NLBs --------------------------------------------------------------------------

  datatype CloudState = CloudState(nlbs: map<string, NLB>, nextNlb: nat)
  {
    function FreshId(): string { Itoa(nextNlb) }

    /** NLB IDs are never handed out twice; IDs of any other form may be in use. */
    ghost predicate Valid() {
      && (forall n | n in nlbs :: nlbs[n].WellFormed())
      && (forall m: nat | m >= nextNlb :: Itoa(m) !in nlbs)
    }
  }

  /** The address the API allocates to an NLB. */
  function AllocatedIp(id: string): string {
    "ip-of-" + id
  }

  function FreshNLB(id: string, name: string, description: string): NLB {
    NLB(name, description, AllocatedIp(id), map[], 0)
  }

  predicate Admissible(st: CloudState, c: Call) {
    match c
    case CreateNLB(_, _) => true
    case DeleteNLB(n) => n in st.nlbs
    case _ => c.nlb in st.nlbs && Admits(st.nlbs[c.nlb], c)
  }

  function Without(nlbs: map<string, NLB>, n: string): map<string, NLB> {
    map i | i in nlbs && i != n :: nlbs[i]
  }

  function Effect(st: CloudState, c: Call): CloudState {
    if !Admissible(st, c) then st else
    match c
    case CreateNLB(name, description) =>
      CloudState(st.nlbs[st.FreshId() := FreshNLB(st.FreshId(), name, description)], st.nextNlb + 1)
    case DeleteNLB(n) => st.(nlbs := Without(st.nlbs, n))
    case _ => st.(nlbs := st.nlbs[c.nlb := Apply(st.nlbs[c.nlb], c)])
  }

  function ExecAll(st: CloudState, calls: seq<Call>): CloudState
    decreases |calls|
  {
    if calls == [] then st else ExecAll(Effect(st, calls[0]), calls[1..])
  }

  predicate AllAdmissible(st: CloudState, calls: seq<Call>)
    decreases |calls|
  {
    calls == [] || (Admissible(st, calls[0]) && AllAdmissible(Effect(st, calls[0]), calls[1..]))
  }

  lemma ValidKept(st: CloudState, c: Call)
    requires st.Valid()
    ensures Effect(st, c).Valid()
  {
    match c
    case CreateNLB(_, _) =>
      forall m: nat | m > st.nextNlb
        ensures Itoa(m) !in Effect(st, c).nlbs
      {
        if Itoa(m) == st.FreshId() { ItoaInjective(m, st.nextNlb); }
      }
    case DeleteNLB(_) =>
    case _ =>
      if Admissible(st, c) { WellFormedKept(st.nlbs[c.nlb], c); }
  }

  lemma {:induction false} ValidAlong(st: CloudState, calls: seq<Call>)
    requires st.Valid()
    ensures ExecAll(st, calls).Valid()
    decreases |calls|
  {
    if calls != [] {
      ValidKept(st, calls[0]);
      ValidAlong(Effect(st, calls[0]), calls[1..]);
    }
  }

  lemma {:induction false} ExecAppend(st: CloudState, a: seq<Call>, b: seq<Call>)
    ensures ExecAll(st, a + b) == ExecAll(ExecAll(st, a), b)
    ensures AllAdmissible(st, a + b) <==> AllAdmissible(st, a) && AllAdmissible(ExecAll(st, a), b)
    decreases |a|
  {
    if a == [] {
      assert a + b == b;
    } else {
      assert (a + b)[1..] == a[1..] + b;
      ExecAppend(Effect(st, a[0]), a[1..], b);
    }
  }

  lemma ExecSnoc(st: CloudState, a: seq<Call>, c: Call)
    ensures ExecAll(st, a + [c]) == Effect(ExecAll(st, a), c)
  {
    ExecAppend(st, a, [c]);
    assert ExecAll(Effect(ExecAll(st, a), c), []) == Effect(ExecAll(st, a), c);
  }

  /** A sequence of calls that stays on one NLB is a run on that NLB and frames all others. */
  lemma {:induction false} ExecOnOne(st: CloudState, n: string, calls: seq<Call>)
    requires n in st.nlbs
    requires forall i | 0 <= i < |calls| :: calls[i].StaysOn(n)
    ensures ExecAll(st, calls) == st.(nlbs := st.nlbs[n := RunOn(st.nlbs[n], calls)])
    ensures AllAdmissible(st, calls) <==> AllAdmitted(st.nlbs[n], calls)
    decreases |calls|
  {
    if calls == [] {
      assert st.nlbs[n := st.nlbs[n]] == st.nlbs;
    } else {
      var st' := Effect(st, calls[0]);
      assert st' == st.(nlbs := st.nlbs[n := Apply(st.nlbs[n], calls[0])]) by {
        if !Admits(st.nlbs[n], calls[0]) { assert st.nlbs[n := st.nlbs[n]] == st.nlbs; }
      }
      ExecOnOne(st', n, calls[1..]);
    }
  }

  // ----- Interrupted runs ------------------------------------------------------------------

  /** How a run that follows `plan` may end. It has issued a prefix of the plan. All issued
      calls took effect, except that the last call of a failed run may have had none. A run
      that succeeds has issued the whole plan. */
  ghost predicate Ran(st: CloudState, plan: seq<Call>, st': CloudState, issued: seq<Call>, ok: bool) {
    && issued <= plan
    && (st' == ExecAll(st, issued)
        || (!ok && issued != [] && st' == ExecAll(st, issued[..|issued| - 1])))
    && (ok ==> issued == plan && st' == ExecAll(st, plan))
  }

  lemma RanDone(st: CloudState, plan: seq<Call>)
    ensures Ran(st, plan, ExecAll(st, plan), plan, true)
  {}

  lemma RanStopped(st: CloudState, done: seq<Call>, rest: seq<Call>)
    ensures Ran(st, done + rest, ExecAll(st, done), done, false)
  {}

  lemma RanFailed(st: CloudState, done: seq<Call>, c: Call, rest: seq<Call>, st': CloudState)
    requires st' == ExecAll(st, done) || st' == Effect(ExecAll(st, done), c)
    ensures Ran(st, done + [c] + rest, st', done + [c], false)
  {
    ExecSnoc(st, done, c);
    assert (done + [c])[..|done|] == done;
  }

  lemma RanPrefix(st: CloudState, a: seq<Call>, b: seq<Call>, st': CloudState, issued: seq<Call>)
    requires Ran(st, a, st', issued, false)
    ensures Ran(st, a + b, st', issued, false)
  {}

  lemma RanThen(st: CloudState, a: seq<Call>, st1: CloudState, b: seq<Call>, st2: CloudState, issued: seq<Call>, ok: bool)
    requires Ran(st, a, st1, a, true) && Ran(st1, b, st2, issued, ok)
    ensures Ran(st, a + b, st2, a + issued, ok)
  {
    ExecAppend(st, a, issued);
    if issued != [] {
      ExecAppend(st, a, issued[..|issued| - 1]);
      assert (a + issued)[..|a + issued| - 1] == a + issued[..|issued| - 1];
    }
  }

  /** One round of a loop that has issued `done` and goes on with `round`, then `todo`. */
  lemma RanRound(st: CloudState, done: seq<Call>, round: seq<Call>, todo: seq<Call>,
                 st': CloudState, issued: seq<Call>, ok: bool)
    requires Ran(ExecAll(st, done), round, st', issued, ok)
    ensures ok ==> issued == round && st' == ExecAll(st, done + issued)
    ensures !ok ==> Ran(st, done + (round + todo), st', done + issued, false)
    ensures AllAdmissible(st, done + (round + todo)) ==> AllAdmissible(ExecAll(st, done), round)
  {
    RanDone(st, done);
    RanThen(st, done, ExecAll(st, done), round, st', issued, ok);
    assert done + (round + todo) == (done + round) + todo;
    ExecAppend(st, done, round + todo);
    ExecAppend(ExecAll(st, done), round, todo);
    if !ok { RanPrefix(st, done + round, todo, st', done + issued); }
  }

  lemma AdmissibleNext(st: CloudState, done: seq<Call>, c: Call, rest: seq<Call>)
    requires AllAdmissible(st, done + [c] + rest)
    ensures Admissible(ExecAll(st, done), c)
  {
    assert done + [c] + rest == done + ([c] + rest);
    ExecAppend(st, done, [c] + rest);
  }
}
