/** How many NLBs one Service can own, over whole histories that include outside interference. */
module Conservation {
  import opened Prelude
  import opened Naming
  import opened LoadBalancerApi
  import opened UpdatePlan
  import opened UpdateTheorems
  import opened ServiceSpec
  import opened PoolInference
  import opened Controller
  import opened LoadBalancers
  import opened Withdrawal
  import opened Histories

  /** What an Ensure run does to the set of NLBs: nothing, or one more under a new ID, and the
      latter only when the Service names no live NLB and is not external. */
  lemma EnsureKeys(st: CloudState, target: Result<Spec, Error>, id: string,
                   st': CloudState, issued: seq<Call>, ok: bool)
    requires st.Valid() && EnsureRan(st, target, id, st', issued, ok)
    ensures || (st'.nextNlb == st.nextNlb && st'.nlbs.Keys == st.nlbs.Keys)
            || (&& st'.nextNlb == st.nextNlb + 1 && st'.nlbs.Keys == st.nlbs.Keys + {st.FreshId()}
                && target.Ok? && !target.value.external && !(id != "" && id in st.nlbs))
    ensures st'.Valid()
  {
    if !ok && issued == [] && st' == st {
    } else if id != "" && id in st.nlbs {
      AddressKept(st, target, id, st', issued, ok);
      UpdateKeepsValid(st, target, id, st', issued, ok);
    } else {
      var effective := Effective(st, st', issued);
      EffectiveRan(st, CreationPlan(st, target.value), st', issued, ok);
      CreationKeys(st, target.value, effective);
    }
  }

  lemma UpdateKeepsValid(st: CloudState, target: Result<Spec, Error>, id: string,
                    st': CloudState, issued: seq<Call>, ok: bool)
    requires st.Valid() && UpdateRan(st, target, id, st', issued, ok)
    ensures st'.Valid()
  {
    if !(!ok && issued == [] && st' == st) { UpdateSafe(st, target.value, id, st', issued, ok); }
  }

  lemma CreationKeys(st: CloudState, spec: Spec, effective: seq<Call>)
    requires st.Valid() && effective <= CreationPlan(st, spec)
    ensures var st' := ExecAll(st, effective);
            && st'.Valid()
            && (if effective == [] then st' == st
                else st'.nextNlb == st.nextNlb + 1 && st'.nlbs.Keys == st.nlbs.Keys + {st.FreshId()})
  {
    ValidAlong(st, effective);
    if effective != [] {
      var n, create := st.FreshId(), CreateNLB(spec.name, spec.description);
      var nlb, st1, rest := FreshNLB(n, spec.name, spec.description), Effect(st, create), effective[1..];
      assert effective[0] == create && rest <= Plan(n, nlb, [], spec);
      WellFormedFresh(n, spec);
      PrefixSafe(n, nlb, [], spec, rest);
      forall i | 0 <= i < |rest| ensures rest[i].StaysOn(n) { assert rest[i] in rest; }
      ExecOnOne(st1, n, rest);
    }
  }

  lemma WellFormedFresh(n: string, spec: Spec)
    ensures FreshNLB(n, spec.name, spec.description).WellFormed()
    ensures Lists([], FreshNLB(n, spec.name, spec.description).services)
  {}

  /** The API, the API server's annotations of one Service, the NLBs created for it so far, how
      many of these have gone, and how many runs created one and did not record its ID. */
  datatype World = World(st: CloudState, server: Annotations, created: set<string>, losses: nat, cuts: nat)
  {
    function Live(): set<string> {
      created * st.nlbs.Keys
    }

    /** Live NLBs of the Service that its annotation does not name. */
    function Orphans(): set<string> {
      Live() - {IdOf(server)}
    }

    ghost predicate Invariant() {
      && st.Valid()
      && !IsExternal(server)
      && "" !in created && (forall m: nat | m >= st.nextNlb :: Itoa(m) !in created)
      && |Orphans()| <= cuts
      && |created| <= losses + |Live()|
    }
  }

  /** An NLB was created, and its ID did not reach the API server's annotations. */
  predicate Unrecorded(w: World, w': World) {
    w'.st.nextNlb != w.st.nextNlb && IdOf(w'.server) != w.st.FreshId()
  }

  /** An Ensure run that starts from a fresh copy of the annotations and ends with the copy
      `local`, with the calls it issued. */
  ghost predicate EnsuredWith(m: Manifest, parsers: Parsers, w: World, w': World, local: Annotations,
                              issued: seq<Call>, ok: bool) {
    && OwnKeysOnly(w.server, w'.server) && OwnKeysOnly(w.server, local)
    && w'.losses == w.losses
    && w'.created == w.created + (if w'.st.nextNlb == w.st.nextNlb then {} else {w.st.FreshId()})
    && w'.cuts == w.cuts + (if Unrecorded(w, w') then 1 else 0)
    && EnsureRan(w.st, Build(m, local, parsers), IdOf(w.server), w'.st, issued, ok)
    && IdTrail(w.st, w.server, w.server, w'.st, local, w'.server, issued, ok)
  }

  ghost predicate Ensured(m: Manifest, parsers: Parsers, w: World, w': World, issued: seq<Call>, ok: bool) {
    exists local :: EnsuredWith(m, parsers, w, w', local, issued, ok)
  }

  /** Such a run, given what the API knows and the nodes it was passed: it issues no call before
      a pool is chosen. */
  ghost predicate EnsuredOn(m: Manifest, parsers: Parsers, d: Directory, nodes: seq<string>,
                            w: World, w': World, issued: seq<Call>, ok: bool) {
    exists local ::
      && EnsuredWith(m, parsers, w, w', local, issued, ok)
      && (issued != [] ==> PoolChosen(d, nodes, w.server, PoolOf(local)))
  }

  /** The run failed after asking for a new NLB and before its next call. */
  predicate CutShort(issued: seq<Call>, ok: bool) {
    !ok && |issued| == 1 && issued[0].CreateNLB?
  }

  ghost predicate Updated(m: Manifest, parsers: Parsers, w: World, w': World) {
    && w' == w.(st := w'.st)
    && exists issued, ok :: UpdateRan(w.st, Build(m, w.server, parsers), IdOf(w.server), w'.st, issued, ok)
  }

  /** A delete run, or anyone else: NLBs of the Service may go, and count as losses; others come
      and go as they please. */
  ghost predicate Outside(w: World, w': World) {
    && w' == w.(st := w'.st, losses := w.losses + |w.Live() - w'.Live()|)
    && w'.st.Valid() && w'.st.nextNlb >= w.st.nextNlb
    && w'.Live() <= w.Live()
  }

  ghost predicate Next(m: Manifest, parsers: Parsers, w: World, w': World) {
    || (exists issued, ok :: Ensured(m, parsers, w, w', issued, ok))
    || Updated(m, parsers, w, w')
    || Outside(w, w')
  }

  /** A delete run takes away the annotated NLB or none, */
  lemma WithdrawMayGo(m: Manifest, w: World, st': CloudState, issued: seq<Call>, ok: bool)
    requires w.st.Valid() && WithdrawRan(w.st, m, w.server, st', issued, ok)
    ensures st'.Valid() && st'.nextNlb == w.st.nextNlb
    ensures w.st.nlbs.Keys - {IdOf(w.server)} <= st'.nlbs.Keys <= w.st.nlbs.Keys
  {
    var n := IdOf(w.server);
    if n != "" && n in w.st.nlbs && !(!ok && issued == [] && st' == w.st) {
      var l :| Lists(l, w.st.nlbs[n].services)
               && Ran(w.st, WithdrawPlan(n, l, m, IsExternal(w.server)), st', issued, ok);
      var effective := Effective(w.st, st', issued);
      EffectiveRan(w.st, WithdrawPlan(n, l, m, IsExternal(w.server)), st', issued, ok);
      OnlyDeletes(n, l, m, IsExternal(w.server), effective);
      ValidAlong(w.st, effective);
      DeletesKeys(w.st, n, effective);
    }
  }

  /** so that it is a step of this kind. */
  lemma WithdrawIsOutside(m: Manifest, w: World, w': World, issued: seq<Call>, ok: bool)
    requires w.st.Valid() && WithdrawRan(w.st, m, w.server, w'.st, issued, ok)
    requires w' == w.(st := w'.st, losses := w.losses + |w.Live() - w'.Live()|)
    ensures Outside(w, w')
    ensures w.Live() - w'.Live() <= {IdOf(w.server)}
  {
    WithdrawMayGo(m, w, w'.st, issued, ok);
  }

  lemma OnlyDeletes(n: string, l: seq<LBService>, m: Manifest, external: bool, calls: seq<Call>)
    requires calls <= WithdrawPlan(n, l, m, external)
    ensures forall i | 0 <= i < |calls| :: calls[i].DeleteService? || calls[i] == DeleteNLB(n)
  {
    DeletesAreDeletes(n, l, m.ports);
    var plan := WithdrawPlan(n, l, m, external);
    forall i | 0 <= i < |calls| ensures calls[i].DeleteService? || calls[i] == DeleteNLB(n) {
      assert calls[i] == plan[i];
      if i < |Deletes(n, l, m.ports)| { assert plan[i] == Deletes(n, l, m.ports)[i]; }
    }
  }

  lemma {:induction false} MatchesAreDeletes(n: string, s: LBService, ports: seq<ServicePort>)
    ensures forall c | c in DeletesFor(n, s, ports) :: c.DeleteService?
    decreases |ports|
  {
    if ports != [] { MatchesAreDeletes(n, s, ports[1..]); }
  }

  lemma {:induction false} DeletesAreDeletes(n: string, l: seq<LBService>, ports: seq<ServicePort>)
    ensures forall c | c in Deletes(n, l, ports) :: c.DeleteService?
    decreases |l|
  {
    if l != [] {
      MatchesAreDeletes(n, l[0], ports);
      DeletesAreDeletes(n, l[1..], ports);
    }
  }

  lemma {:induction false} DeletesKeys(st: CloudState, n: string, calls: seq<Call>)
    requires forall i | 0 <= i < |calls| :: calls[i].DeleteService? || calls[i] == DeleteNLB(n)
    ensures var st' := ExecAll(st, calls);
            st'.nextNlb == st.nextNlb && st.nlbs.Keys - {n} <= st'.nlbs.Keys <= st.nlbs.Keys
    decreases |calls|
  {
    if calls != [] { DeletesKeys(Effect(st, calls[0]), n, calls[1..]); }
  }

  // ----- The invariant ---------------------------------------------------------------------

  lemma NewIdsStayNew(created: set<string>, next: nat)
    requires forall k: nat | k >= next :: Itoa(k) !in created
    ensures forall k: nat | k >= next + 1 :: Itoa(k) !in created + {Itoa(next)}
    ensures |created + {Itoa(next)}| == |created| + 1
  {
    forall k: nat | k >= next + 1 ensures Itoa(k) !in created + {Itoa(next)} {
      if Itoa(k) == Itoa(next) { ItoaInjective(k, next); }
    }
    assert Itoa(next) !in created;
  }

  /** What an Ensure run does to the set of NLBs, in terms of the annotations it found. */
  ghost predicate Booked(w: World, w': World) {
    && w'.st.Valid() && !IsExternal(w'.server) && w'.losses == w.losses
    && w'.cuts == w.cuts + (if Unrecorded(w, w') then 1 else 0)
    && if w'.st.nextNlb == w.st.nextNlb then
         w'.created == w.created && w'.st.nlbs.Keys == w.st.nlbs.Keys && IdOf(w'.server) == IdOf(w.server)
       else
         && w'.created == w.created + {w.st.FreshId()}
         && w'.st.nextNlb == w.st.nextNlb + 1 && w'.st.nlbs.Keys == w.st.nlbs.Keys + {w.st.FreshId()}
         && !(IdOf(w.server) != "" && IdOf(w.server) in w.st.nlbs)
         && (IdOf(w'.server) == IdOf(w.server) || IdOf(w'.server) == w.st.FreshId())
  }

  lemma EnsuredKeys(m: Manifest, parsers: Parsers, w: World, w': World, issued: seq<Call>, ok: bool)
    requires w.Invariant() && Ensured(m, parsers, w, w', issued, ok)
    ensures Booked(w, w')
    ensures w'.st.nextNlb != w.st.nextNlb ==> Build(m, w.server, parsers).Ok?
  {
    var local :| EnsuredWith(m, parsers, w, w', local, issued, ok);
    EnsureKeys(w.st, Build(m, local, parsers), IdOf(w.server), w'.st, issued, ok);
    BuildIgnoresOwnWrites(m, w.server, local, parsers);
    assert IsExternal(w'.server) == IsExternal(w.server) by { OwnAnnotations(); }
  }

  lemma LiveGrows(created: set<string>, keys: set<string>, id: string)
    requires id !in created && id !in keys
    ensures id !in created * keys && (created + {id}) * (keys + {id}) == created * keys + {id}
  {}

  lemma OrphansGrow(live: set<string>, before: string, after: string, id: string)
    requires id !in live && before !in live && (after == before || after == id)
    ensures (live + {id}) - {after} == (live - {before}) + if after == id then {} else {id}
  {}

  lemma NotLive(w: World)
    requires w.Invariant() && !(IdOf(w.server) != "" && IdOf(w.server) in w.st.nlbs)
    ensures IdOf(w.server) !in w.Live()
  {}

  /** A new NLB joins the live ones; it is an orphan exactly when it is not recorded. */
  lemma OneCreated(w: World, w': World)
    requires w.Invariant()
    requires w'.st.nlbs.Keys == w.st.nlbs.Keys + {w.st.FreshId()} && w'.created == w.created + {w.st.FreshId()}
    requires !(IdOf(w.server) != "" && IdOf(w.server) in w.st.nlbs)
    requires IdOf(w'.server) == IdOf(w.server) || IdOf(w'.server) == w.st.FreshId()
    ensures w.st.FreshId() !in w.Live() && w'.Live() == w.Live() + {w.st.FreshId()}
    ensures w'.Orphans() == w.Orphans() + if IdOf(w'.server) == w.st.FreshId() then {} else {w.st.FreshId()}
  {
    LiveGrows(w.created, w.st.nlbs.Keys, w.st.FreshId());
    NotLive(w);
    OrphansGrow(w.Live(), IdOf(w.server), IdOf(w'.server), w.st.FreshId());
  }

  lemma NothingCreated(w: World, w': World)
    requires w'.created == w.created && w'.st.nlbs.Keys == w.st.nlbs.Keys && IdOf(w'.server) == IdOf(w.server)
    ensures w'.Live() == w.Live() && w'.Orphans() == w.Orphans()
  {}

  lemma BookedOrphans(w: World, w': World)
    requires w.Invariant() && Booked(w, w')
    ensures w'.Orphans() == w.Orphans() + if Unrecorded(w, w') then {w.st.FreshId()} else {}
    ensures w'.Live() == w.Live() + if w'.st.nextNlb == w.st.nextNlb then {} else {w.st.FreshId()}
    ensures w'.st.nextNlb != w.st.nextNlb ==> w.st.FreshId() !in w.Live()
  {
    if w'.st.nextNlb == w.st.nextNlb { NothingCreated(w, w'); } else { OneCreated(w, w'); }
  }

  lemma OneMore(a: set<string>, x: string)
    ensures |a + {x}| <= |a| + 1
    ensures x !in a ==> |a + {x}| == |a| + 1
  {
    if x in a { assert a + {x} == a; }
  }

  lemma BookedKeeps(w: World, w': World)
    requires w.Invariant() && Booked(w, w')
    ensures w'.Invariant()
  {
    BookedOrphans(w, w');
    if w'.st.nextNlb != w.st.nextNlb {
      NewIdsStayNew(w.created, w.st.nextNlb);
      OneMore(w.Live(), w.st.FreshId());
      OneMore(w.Orphans(), w.st.FreshId());
    }
  }

  lemma EnsuredKeeps(m: Manifest, parsers: Parsers, w: World, w': World, issued: seq<Call>, ok: bool)
    requires w.Invariant() && Ensured(m, parsers, w, w', issued, ok)
    ensures w'.Invariant()
  {
    EnsuredKeys(m, parsers, w, w', issued, ok);
    BookedKeeps(w, w');
  }

  /** A run that creates an NLB begins with that call. */
  lemma CreatingBegins(st: CloudState, target: Result<Spec, Error>, id: string,
                       st': CloudState, issued: seq<Call>, ok: bool)
    requires st.Valid() && EnsureRan(st, target, id, st', issued, ok) && st'.nextNlb != st.nextNlb
    ensures issued != [] && issued[0].CreateNLB?
  {
    if target.Ok? && id != "" && id in st.nlbs && UpdateRan(st, target, id, st', issued, ok) {
      AddressKept(st, target, id, st', issued, ok);
    }
  }

  /** A run that is not cut short there records what it creates. */
  lemma UncutRecorded(m: Manifest, parsers: Parsers, w: World, w': World, issued: seq<Call>, ok: bool)
    requires w.st.Valid() && Ensured(m, parsers, w, w', issued, ok) && Unrecorded(w, w')
    ensures CutShort(issued, ok)
  {
    var local :| EnsuredWith(m, parsers, w, w', local, issued, ok);
    CreatingBegins(w.st, Build(m, local, parsers), IdOf(w.server), w'.st, issued, ok);
  }

  lemma PartCounts(part: set<string>, whole: set<string>)
    requires part <= whole
    ensures |whole| == |part| + |whole - part|
  {
    assert whole == part + (whole - part);
  }

  lemma OutsideKeeps(w: World, w': World)
    requires w.Invariant() && Outside(w, w')
    ensures w'.Invariant()
  {
    PartCounts(w'.Live(), w.Live());
    PartCounts(w'.Orphans(), w.Orphans());
  }

  lemma UpdatedKeeps(m: Manifest, parsers: Parsers, w: World, w': World)
    requires w.Invariant() && Updated(m, parsers, w, w')
    ensures w'.Invariant()
  {
    var issued, ok :| UpdateRan(w.st, Build(m, w.server, parsers), IdOf(w.server), w'.st, issued, ok);
    AddressKept(w.st, Build(m, w.server, parsers), IdOf(w.server), w'.st, issued, ok);
    UpdateKeepsValid(w.st, Build(m, w.server, parsers), IdOf(w.server), w'.st, issued, ok);
    assert w'.Live() == w.Live();
  }

  lemma NextKeeps(m: Manifest, parsers: Parsers, w: World, w': World)
    requires w.Invariant() && Next(m, parsers, w, w')
    ensures w'.Invariant()
  {
    if issued, ok :| Ensured(m, parsers, w, w', issued, ok) {
      EnsuredKeeps(m, parsers, w, w', issued, ok);
    } else if Updated(m, parsers, w, w') {
      UpdatedKeeps(m, parsers, w, w');
    } else {
      OutsideKeeps(w, w');
    }
  }

  lemma InvariantBounds(w: World)
    requires w.Invariant()
    ensures |w.Live()| <= 1 + w.cuts && |w.created| <= 1 + w.losses + w.cuts
    ensures w.cuts == 0 ==> w.Live() <= {IdOf(w.server)}
  {
    var id := IdOf(w.server);
    if id in w.Live() {
      assert w.Live() == w.Orphans() + {id};
    } else {
      assert w.Live() == w.Orphans();
    }
  }

  /** Before the first run the invariant holds, whatever the ID annotation says. */
  lemma NothingYet(st: CloudState, server: Annotations)
    requires st.Valid() && !IsExternal(server)
    ensures World(st, server, {}, 0, 0).Invariant()
  {
    assert World(st, server, {}, 0, 0).Live() == {};
  }

  /** A history of steps; the manifest may change from one to the next. */
  ghost predicate History(ms: seq<Manifest>, parsers: Parsers, ws: seq<World>) {
    |ws| == |ms| + 1 && forall j | 0 <= j < |ms| :: Next(ms[j], parsers, ws[j], ws[j + 1])
  }

  /** Conservation: besides the annotated NLB no more NLBs of the Service are live than runs were
      cut short between creating and annotating, and no more were ever created than one plus
      these runs plus the NLBs that went. Without such runs, at most one is live, and it is
      the annotated one. */
  lemma NLBConservation(ms: seq<Manifest>, parsers: Parsers, ws: seq<World>, i: nat)
    requires History(ms, parsers, ws) && i < |ws| && ws[0].Invariant()
    ensures var w := ws[i];
            && |w.Orphans()| <= w.cuts && |w.Live()| <= 1 + w.cuts
            && |w.created| <= 1 + w.losses + w.cuts
            && (w.cuts == 0 ==> w.Live() <= {IdOf(w.server)})
  {
    var holds := (w: World) => w.Invariant();
    forall j | 0 < j < |ws| && holds(ws[j - 1]) ensures holds(ws[j]) {
      assert Next(ms[j - 1], parsers, ws[j - 1], ws[j - 1 + 1]);
      NextKeeps(ms[j - 1], parsers, ws[j - 1], ws[j]);
    }
    Along(ws, holds, i);
    InvariantBounds(ws[i]);
  }

  /** Where a successful Ensure run ends, whatever went before it: the NLB that the API server's
      annotation names is live and offers exactly one service per port, as asked. */
  lemma EnsureEndsRight(m: Manifest, parsers: Parsers, w: World, w': World, local: Annotations, issued: seq<Call>)
    requires w.st.Valid() && UniquePorts(m) && !IsExternal(w.server) && OwnKeysOnly(w.server, local)
    requires EnsureRan(w.st, Build(m, local, parsers), IdOf(w.server), w'.st, issued, true)
    requires IdTrail(w.st, w.server, w.server, w'.st, local, w'.server, issued, true)
    ensures var n := IdOf(w'.server);
            && n in w'.st.nlbs && Build(m, local, parsers).Ok?
            && w'.st.nlbs[n].services.Keys == PortKeys(m)
            && forall d | d in Build(m, local, parsers).value.services :: Provides(w'.st.nlbs[n], d)
  {
    var spec, id := Build(m, local, parsers).value, IdOf(w.server);
    assert !spec.external by { OwnAnnotations(); }
    assert UniqueKeys(spec.services) && KeysOf(spec.services) == PortKeys(m) by { BuildFaithful(m, local, parsers); }
    EnsureConverges(w.st, spec, id, w'.st, issued);
    assert IdOf(w'.server) == EnsuredId(w.st, id) by { EnsureKeys(w.st, Ok(spec), id, w'.st, issued, true); }
    ProvidesAll(EnsuredFrom(w.st, id, spec), w'.st.nlbs[IdOf(w'.server)], spec);
  }

  /** A run makes an orphan exactly when it is cut short right after the creation, the creation
      took effect, and the annotation on the API server is the one the run found. */
  lemma OrphanOfRun(m: Manifest, parsers: Parsers, w: World, w': World, issued: seq<Call>, ok: bool)
    requires w.Invariant() && IdOf(w.server) != w.st.FreshId() && Ensured(m, parsers, w, w', issued, ok)
    ensures w'.Orphans() ==
            w.Orphans() + if CutShort(issued, ok) && w'.st.nextNlb != w.st.nextNlb && IdOf(w'.server) == IdOf(w.server)
                          then {w.st.FreshId()} else {}
  {
    EnsuredKeys(m, parsers, w, w', issued, ok);
    BookedOrphans(w, w');
    if Unrecorded(w, w') { UncutRecorded(m, parsers, w, w', issued, ok); }
  }

  /** A Service that builds, for which a pool can be chosen, and whose annotation names no live
      NLB: either there is none yet, or the one there was has vanished. */
  ghost predicate MayCreate(m: Manifest, parsers: Parsers, d: Directory, nodes: seq<string>, w: World) {
    && Build(m, w.server, parsers).Ok?
    && (exists pool :: PoolChosen(d, nodes, w.server, pool))
    && !(IdOf(w.server) != "" && IdOf(w.server) in w.st.nlbs)
  }

  /** Some run from here can make an orphan, exactly for such a Service. */
  lemma OrphanExactly(m: Manifest, parsers: Parsers, d: Directory, nodes: seq<string>, w: World)
    requires w.Invariant() && IdOf(w.server) != w.st.FreshId()
    ensures (exists w', issued, ok ::
               EnsuredOn(m, parsers, d, nodes, w, w', issued, ok) && w'.Orphans() != w.Orphans())
            <==> MayCreate(m, parsers, d, nodes, w)
  {
    if w', issued, ok :| EnsuredOn(m, parsers, d, nodes, w, w', issued, ok) && w'.Orphans() != w.Orphans() {
      OrphanNeeds(m, parsers, d, nodes, w, w', issued, ok);
    }
    if MayCreate(m, parsers, d, nodes, w) {
      var w', issued := OrphanHappens(m, parsers, d, nodes, w);
    }
  }

  lemma OrphanNeeds(m: Manifest, parsers: Parsers, d: Directory, nodes: seq<string>,
                    w: World, w': World, issued: seq<Call>, ok: bool)
    requires w.Invariant() && EnsuredOn(m, parsers, d, nodes, w, w', issued, ok) && w'.Orphans() != w.Orphans()
    ensures MayCreate(m, parsers, d, nodes, w)
  {
    var local :|
      && EnsuredWith(m, parsers, w, w', local, issued, ok)
      && (issued != [] ==> PoolChosen(d, nodes, w.server, PoolOf(local)));
    EnsuredKeys(m, parsers, w, w', issued, ok);
    BookedOrphans(w, w');
    CreatingBegins(w.st, Build(m, local, parsers), IdOf(w.server), w'.st, issued, ok);
  }

  /** The pool is chosen and annotated, the creation takes effect, and the run ends there. */
  lemma CutRun(m: Manifest, parsers: Parsers, w: World, server: Annotations, spec: Spec, w': World)
    requires w.Invariant() && IdOf(w.server) != w.st.FreshId()
    requires OwnKeysOnly(w.server, server) && IdOf(server) == IdOf(w.server)
    requires Build(m, server, parsers) == Ok(spec) && !spec.external
    requires !(IdOf(w.server) != "" && IdOf(w.server) in w.st.nlbs)
    requires var create := CreateNLB(spec.name, spec.description);
             w' == World(Effect(w.st, create), server, w.created + {w.st.FreshId()}, w.losses, w.cuts + 1)
    ensures EnsuredWith(m, parsers, w, w', server, [CreateNLB(spec.name, spec.description)], false)
    ensures w'.Orphans() == w.Orphans() + {w.st.FreshId()} && w.st.FreshId() !in w.Orphans()
  {
    assert EnsureRan(w.st, Ok(spec), IdOf(w.server), w'.st, [CreateNLB(spec.name, spec.description)], false) by {
      CreationBegun(w.st, spec, w'.st, [CreateNLB(spec.name, spec.description)]);
    }
    OneCreated(w, w');
  }

  lemma PoolAnnotated(m: Manifest, parsers: Parsers, a: Annotations, pool: string) returns (b: Annotations, spec: Spec)
    requires Build(m, a, parsers).Ok? && !IsExternal(a)
    ensures OwnKeysOnly(a, b) && IdOf(b) == IdOf(a) && PoolOf(b) == pool
    ensures Build(m, b, parsers) == Ok(spec) && !spec.external
  {
    b := if PoolOf(a) == pool then a else a[PoolAnnotation := pool];
    SettingAPool(a, b, pool);
    BuildIgnoresOwnWrites(m, a, b, parsers);
    spec := Build(m, b, parsers).value;
  }

  lemma OrphanHappens(m: Manifest, parsers: Parsers, d: Directory, nodes: seq<string>, w: World)
    returns (w': World, issued: seq<Call>)
    requires w.Invariant() && IdOf(w.server) != w.st.FreshId() && MayCreate(m, parsers, d, nodes, w)
    ensures EnsuredOn(m, parsers, d, nodes, w, w', issued, false)
    ensures CutShort(issued, false) && w'.Orphans() != w.Orphans()
  {
    var pool :| PoolChosen(d, nodes, w.server, pool);
    var server, spec := PoolAnnotated(m, parsers, w.server, pool);
    issued := [CreateNLB(spec.name, spec.description)];
    w' := World(Effect(w.st, issued[0]), server, w.created + {w.st.FreshId()}, w.losses, w.cuts + 1);
    assert EnsuredWith(m, parsers, w, w', server, issued, false)
           && w'.Orphans() == w.Orphans() + {w.st.FreshId()} && w.st.FreshId() !in w.Orphans()
    by { CutRun(m, parsers, w, server, spec, w'); }
    assert w.st.FreshId() in w'.Orphans();
  }
}
