/** The controller's entry points: ensuring, updating and deleting the NLB of a Service. */
module LoadBalancers {
  import opened Prelude
  import opened LoadBalancerApi
  import opened UpdatePlan
  import opened UpdateTheorems
  import opened ServiceSpec
  import opened Patching
  import opened PoolInference
  import opened CloudApi
  import opened Controller

  function IdOf(a: Annotations): string {
    Get(a, IdAnnotation, "")
  }

  function PoolOf(a: Annotations): string {
    Get(a, PoolAnnotation, "")
  }

  /** One annotation was written, or nothing was. */
  ghost predicate MaybeSet(a: Annotations, b: Annotations, k: string, v: string) {
    b == a || b == a[k := v]
  }

  /** The pool a successful run settles on, given the annotations it started from: that of the
      nodepool named, else the one annotated, else the one inferred from the nodes. */
  ghost predicate PoolChosen(d: Directory, nodes: seq<string>, a: Annotations, pool: string) {
    var cluster, nodepool := Get(a, ClusterNameAnnotation, ""), Get(a, NodepoolNameAnnotation, "");
    if nodepool != "" then cluster != "" && NamedPool(d.clusters, cluster, nodepool, pool)
    else if cluster != "" || PoolOf(a) != "" then pool == PoolOf(a)
    else d.Known(nodes) && Scan(d.ManagersOf(nodes), "") == Ok(pool) && pool != ""
  }

  function PoolErrors(): set<Error> {
    {ClusterUnknown, NodepoolUnknown, NodepoolWithoutCluster, SeveralPools, NoPool, NotFound}
  }

  /** The NLB ID plays no part in it. */
  lemma ChosenWhateverTheId(d: Directory, nodes: seq<string>, a: Annotations, b: Annotations, id: string, pool: string)
    requires MaybeSet(a, b, IdAnnotation, id) && PoolChosen(d, nodes, b, pool)
    ensures PoolChosen(d, nodes, a, pool)
  {
    OwnAnnotations();
  }

  lemma NoneChosenWhateverTheId(d: Directory, nodes: seq<string>, a: Annotations, b: Annotations, id: string)
    requires MaybeSet(a, b, IdAnnotation, id)
    ensures (exists pool :: PoolChosen(d, nodes, a, pool)) ==> exists pool :: PoolChosen(d, nodes, b, pool)
  {
    OwnAnnotations();
    if pool :| PoolChosen(d, nodes, a, pool) { assert PoolChosen(d, nodes, b, pool); }
  }

  lemma SettingAnId(a: Annotations, b: Annotations, id: string)
    requires MaybeSet(a, b, IdAnnotation, id)
    ensures OwnKeysOnly(a, b) && PoolOf(b) == PoolOf(a)
  {
    OwnAnnotations();
  }

  lemma SettingAPool(a: Annotations, b: Annotations, pool: string)
    requires MaybeSet(a, b, PoolAnnotation, pool)
    ensures OwnKeysOnly(a, b) && IdOf(b) == IdOf(a)
  {
    OwnAnnotations();
  }

  function CreationPlan(st: CloudState, spec: Spec): seq<Call> {
    [CreateNLB(spec.name, spec.description)]
    + Plan(st.FreshId(), FreshNLB(st.FreshId(), spec.name, spec.description), [], spec)
  }

  /** What an Ensure run may leave behind: `id` is the NLB it fetched, if any. */
  ghost predicate EnsureRan(st: CloudState, target: Result<Spec, Error>, id: string,
                            st': CloudState, issued: seq<Call>, ok: bool) {
    || (!ok && issued == [] && st' == st)
    || (target.Ok? && id != "" && id in st.nlbs && UpdateRan(st, target, id, st', issued, ok))
    || (target.Ok? && !target.value.external && !(id != "" && id in st.nlbs)
        && Ran(st, CreationPlan(st, target.value), st', issued, ok))
  }

  /** What fetching or creating the NLB may leave behind: nothing new when the Service names a
      live one, otherwise at most one creation, whose ID is annotated before it succeeds. */
  ghost predicate Begun(st: CloudState, local: Annotations, server: Annotations, spec: Spec,
                        st': CloudState, local': Annotations, server': Annotations, issued: seq<Call>, ok: bool) {
    var id, newId, create := IdOf(local), st.FreshId(), CreateNLB(spec.name, spec.description);
    if id != "" && id in st.nlbs then issued == [] && st' == st && local' == local && server' == server
    else
      && MaybeSet(local, local', IdAnnotation, newId) && MaybeSet(server, server', IdAnnotation, newId)
      && (st' == st ==> local' == local && server' == server)
      && (if ok then !spec.external && issued == [create] && st' == Effect(st, create) && IdOf(local') == newId
          else || (issued == [] && st' == st)
               || (!spec.external && issued == [create] && (st' == st || st' == Effect(st, create))))
  }

  /** An external NLB is the one annotated, or the only one that bears the annotated name. */
  ghost predicate NamedNLB(st: CloudState, a: Annotations, id: string) {
    var name := Get(a, NameAnnotation, "");
    IsExternal(a) ==> if IdOf(a) != "" then id == IdOf(a) else name != "" && OnlyNLB(st, name, id)
  }

  predicate Live(st: CloudState, id: string) {
    id != "" && id in st.nlbs
  }

  /** Why the annotations could not be resolved: a fault, or no NLB is named, or no pool can be
      chosen. */
  ghost predicate Unresolved(e: Error, st: CloudState, d: Directory, nodes: seq<string>, a: Annotations) {
    || e in {Fault, NotPatched}
    || (e in {ExternalUnidentified, ExternalUnknown} && forall id :: !NamedNLB(st, a, id))
    || (e in PoolErrors() && forall pool :: !PoolChosen(d, nodes, a, pool))
  }

  /** Why a run on resolved annotations may fail. */
  ghost predicate Unfinished(e: Error, st: CloudState, target: Result<Spec, Error>, id: string) {
    match e
    case Fault | NotPatched => true
    case Invalid => target.Err?
    case ExternalNotCreated => target.Ok? && target.value.external && !Live(st, id)
    case Rejected => target.Ok? && !UniqueKeys(target.value.services)
    case ServiceNotVisible => target.Ok? && Unnamed(ServicesBefore(st, id), target.value.services)
    case _ => false
  }

  function ServicesBefore(st: CloudState, id: string): Services {
    if id != "" && id in st.nlbs then st.nlbs[id].services else map[]
  }

  /** A run that has to add a service without a name does not succeed, and only such a run ends
      with a service that is not visible. */
  ghost predicate NamesDecide(r: Result<string, Error>, before: Services, target: Result<Spec, Error>) {
    && (r.Ok? ==> target.Ok? && !Unnamed(before, target.value.services))
    && (r == Err(ServiceNotVisible) ==> target.Ok? && Unnamed(before, target.value.services))
  }

  class LoadBalancer {
    const cloud: Cloud
    const api: ApiServer
    const directory: Directory
    const parsers: Parsers

    constructor (cloud: Cloud, api: ApiServer, directory: Directory, parsers: Parsers)
      ensures this.cloud == cloud && this.api == api && this.directory == directory && this.parsers == parsers
    {
      this.cloud := cloud;
      this.api := api;
      this.directory := directory;
      this.parsers := parsers;
    }

    /** An external NLB is named by its ID, or found by its name once and then by ID. */
    method ResolveExternal(service: Service) returns (r: Result<(), Error>)
      modifies api, service, cloud`faults
      ensures var a0 := old(service.annotations);
              var byName := IsExternal(a0) && IdOf(a0) == "" && Get(a0, NameAnnotation, "") != "";
              && (!byName ==> service.annotations == a0 && api.annotations == old(api.annotations))
              && (!byName ==> (r == Err(ExternalUnidentified) <==> IsExternal(a0) && IdOf(a0) == ""))
              && (!byName && r.Err? ==> r.error == ExternalUnidentified)
      ensures exists id :: MaybeSet(old(service.annotations), service.annotations, IdAnnotation, id)
                           && MaybeSet(old(api.annotations), api.annotations, IdAnnotation, id)
      ensures r.Ok? ==> NamedNLB(cloud.st, old(service.annotations), IdOf(service.annotations))
      ensures r.Err? ==>
                || r.error in {Fault, NotPatched}
                || (r.error in {ExternalUnidentified, ExternalUnknown}
                    && forall id :: !NamedNLB(cloud.st, old(service.annotations), id))
      ensures Counted(old(cloud.faults), cloud.faults, r) && CountedPatch(old(api.faults), api.faults, r)
      ensures r.Ok? && old(service.annotations) == old(api.annotations) ==> service.annotations == api.annotations
    {
      var a0 := service.annotations;
      assert MaybeSet(a0, a0, IdAnnotation, "") && MaybeSet(api.annotations, api.annotations, IdAnnotation, "");
      if !IsExternal(a0) { return Ok(()); }
      var id, name := IdOf(a0), Get(a0, NameAnnotation, "");
      if id == "" && name == "" { return Err(ExternalUnidentified); }
      if id != "" { return Ok(()); }
      var found := cloud.FindLoadBalancer(name);
      if found.Err? { return Err(found.error); }
      var patched := PatchAnnotation(api, service, IdAnnotation, found.value);
      assert MaybeSet(a0, service.annotations, IdAnnotation, found.value);
      return if patched then Ok(()) else Err(NotPatched);
    }

    /** The instance pool: from the SKS nodepool named by the Service, else the one annotated,
        else inferred from the nodes. A cluster named without a nodepool skips all of it. */
    method ResolvePool(service: Service, nodes: seq<string>) returns (r: Result<(), Error>)
      modifies api, service, directory
      ensures exists p :: MaybeSet(old(service.annotations), service.annotations, PoolAnnotation, p)
                          && MaybeSet(old(api.annotations), api.annotations, PoolAnnotation, p)
      ensures r.Ok? && old(service.annotations) == old(api.annotations) ==> service.annotations == api.annotations
      ensures var a0 := old(service.annotations);
              var cluster, nodepool := Get(a0, ClusterNameAnnotation, ""), Get(a0, NodepoolNameAnnotation, "");
              && (cluster == "" && nodepool != "" ==> r == Err(NodepoolWithoutCluster))
              && (nodepool == "" && (cluster != "" || PoolOf(a0) != "") ==>
                    r.Ok? && service.annotations == a0 && api.annotations == old(api.annotations))
      ensures r.Ok? ==> PoolChosen(directory, nodes, old(service.annotations), PoolOf(service.annotations))
      ensures r.Err? ==>
                || r.error in {Fault, NotPatched}
                || (r.error in PoolErrors()
                    && forall pool :: !PoolChosen(directory, nodes, old(service.annotations), pool))
      ensures Counted(old(directory.faults), directory.faults, r) && CountedPatch(old(api.faults), api.faults, r)
    {
      var a0 := service.annotations;
      assert MaybeSet(a0, a0, PoolAnnotation, "") && MaybeSet(api.annotations, api.annotations, PoolAnnotation, "");
      var cluster, nodepool := Get(a0, ClusterNameAnnotation, ""), Get(a0, NodepoolNameAnnotation, "");
      var pool;
      if cluster != "" {
        if nodepool == "" { return Ok(()); }
        pool := directory.NodepoolPool(cluster, nodepool);
      } else if nodepool != "" {
        return Err(NodepoolWithoutCluster);
      } else if PoolOf(a0) == "" {
        pool := directory.InferPool(nodes);
      } else {
        return Ok(());
      }
      if pool.Err? { return Err(pool.error); }
      var patched := PatchAnnotation(api, service, PoolAnnotation, pool.value);
      assert MaybeSet(a0, service.annotations, PoolAnnotation, pool.value);
      return if patched then Ok(()) else Err(NotPatched);
    }

    /** Fetches the NLB the Service names; creates and annotates one when there is none and
        the Service is not external. */
    method FetchOrCreate(service: Service, spec: Spec)
      returns (r: Result<Snapshot, Error>, ghost issued: seq<Call>)
      requires cloud.st.Valid()
      modifies cloud, api, service
      ensures cloud.st.Valid() && cloud.log == old(cloud.log) + issued
      ensures Begun(old(cloud.st), old(service.annotations), old(api.annotations), spec,
                    cloud.st, service.annotations, api.annotations, issued, r.Ok?)
      ensures r.Ok? ==>
                var id := IdOf(service.annotations);
                id in cloud.st.nlbs && Describes(r.value, id, cloud.st.nlbs[id])
      ensures r.Ok? && old(service.annotations) == old(api.annotations) ==> service.annotations == api.annotations
      ensures r.Err? ==>
                || r.error in {Fault, NotPatched}
                || (r.error == ExternalNotCreated && spec.external
                    && !Live(old(cloud.st), IdOf(old(service.annotations))))
      ensures Counted(old(cloud.faults), cloud.faults, r) && CountedPatch(old(api.faults), api.faults, r)
    {
      issued := [];
      ghost var st0 := cloud.st;
      var id := IdOf(service.annotations);
      if id != "" {
        var fetched := cloud.GetLoadBalancer(id);
        if fetched.Ok? { return Ok(fetched.value), []; }
        if fetched.error != NotFound { return Err(fetched.error), []; }
      }
      if spec.external { return Err(ExternalNotCreated), []; }
      var newId := cloud.st.FreshId();
      issued := [CreateNLB(spec.name, spec.description)];
      assert CloudState(st0.nlbs, st0.nextNlb) != Effect(st0, issued[0]);
      var created := cloud.Do(CreateNLB(spec.name, spec.description));
      if created.Err? { return Err(created.error), issued; }
      var fetched := cloud.GetLoadBalancer(newId);
      if fetched.Err? { return Err(fetched.error), issued; }
      var patched := PatchAnnotation(api, service, IdAnnotation, fetched.value.id);
      if !patched { return Err(NotPatched), issued; }
      r := Ok(fetched.value);
    }

    /** The annotations an Ensure run writes before it looks at the NLB. */
    method ResolveAnnotations(service: Service, nodes: seq<string>) returns (r: Result<(), Error>)
      modifies api, service, directory, cloud`faults
      ensures OwnKeysOnly(old(service.annotations), service.annotations)
      ensures OwnKeysOnly(old(api.annotations), api.annotations)
      ensures r.Ok? && old(service.annotations) == old(api.annotations) ==> service.annotations == api.annotations
      ensures !IsExternal(old(service.annotations)) ==>
                IdOf(service.annotations) == IdOf(old(service.annotations))
                && IdOf(api.annotations) == IdOf(old(api.annotations))
      ensures r.Ok? ==> PoolChosen(directory, nodes, old(service.annotations), PoolOf(service.annotations))
      ensures r.Ok? ==> NamedNLB(cloud.st, old(service.annotations), IdOf(service.annotations))
      ensures r.Err? ==> Unresolved(r.error, cloud.st, directory, nodes, old(service.annotations))
      ensures Counted(old(cloud.faults) + old(directory.faults), cloud.faults + directory.faults, r)
      ensures CountedPatch(old(api.faults), api.faults, r)
    {
      ghost var a0, s0 := service.annotations, api.annotations;
      r := ResolveExternal(service);
      ghost var a1, s1 := service.annotations, api.annotations;
      ghost var id :| MaybeSet(a0, a1, IdAnnotation, id) && MaybeSet(s0, s1, IdAnnotation, id);
      SettingAnId(a0, a1, id);
      SettingAnId(s0, s1, id);
      if r.Err? { return; }
      r := ResolvePool(service, nodes);
      ghost var pool :| MaybeSet(a1, service.annotations, PoolAnnotation, pool)
                        && MaybeSet(s1, api.annotations, PoolAnnotation, pool);
      SettingAPool(a1, service.annotations, pool);
      SettingAPool(s1, api.annotations, pool);
      if r.Ok? {
        ChosenWhateverTheId(directory, nodes, a0, a1, id, PoolOf(service.annotations));
      } else {
        NoneChosenWhateverTheId(directory, nodes, a0, a1, id);
      }
    }

    /** Reconciles the NLB that an Ensure run, begun at `st0`, has fetched or created. */
    method UpdateFetched(service: Service, spec: Spec, fetched: Snapshot, ghost st0: CloudState,
                         ghost a0: Annotations, ghost s0: Annotations, ghost begun: seq<Call>)
      returns (r: Result<string, Error>, ghost issued: seq<Call>)
      requires cloud.st.Valid() && st0.Valid() && Build(service.manifest, a0, parsers) == Ok(spec)
      requires Begun(st0, a0, s0, spec, cloud.st, service.annotations, api.annotations, begun, true)
      requires a0 == s0 ==> service.annotations == api.annotations
      requires var id := IdOf(service.annotations); id in cloud.st.nlbs && fetched.ip == cloud.st.nlbs[id].ip
      modifies cloud
      ensures cloud.st.Valid() && cloud.log == old(cloud.log) + issued
      ensures Ended(st0, a0, s0, spec, cloud.st, service.annotations, api.annotations, begun + issued, r.Ok?)
      ensures r.Ok? ==>
                var id := IdOf(service.annotations);
                id in cloud.st.nlbs && r.value == cloud.st.nlbs[id].ip
      ensures NamesDecide(r, ServicesBefore(st0, IdOf(a0)), Ok(spec))
      ensures r.Err? ==> Unfinished(r.error, st0, Ok(spec), IdOf(a0))
      ensures Counted(old(cloud.faults), cloud.faults, r) && (r.Err? ==> r.error != NotPatched)
    {
      ghost var st1, a1, s1 := cloud.st, service.annotations, api.annotations;
      BegunKeepsTarget(service.manifest, parsers, st0, a0, s0, spec, st1, a1, s1, begun);
      BegunServices(st0, a0, s0, spec, st1, a1, s1, begun);
      var updated;
      updated, issued := UpdateLoadBalancer(cloud, service, parsers);
      EndedAfterUpdate(st0, a0, s0, spec, st1, a1, s1, begun, cloud.st, issued, updated.Ok?);
      r := if updated.Ok? then Ok(fetched.ip) else Err(updated.error);
    }

    /** The rest of an Ensure run: fetch or create, then reconcile. */
    method EnsureResolved(service: Service, spec: Spec) returns (r: Result<string, Error>, ghost issued: seq<Call>)
      requires cloud.st.Valid() && Build(service.manifest, service.annotations, parsers) == Ok(spec)
      modifies cloud, api, service
      ensures cloud.st.Valid() && cloud.log == old(cloud.log) + issued
      ensures Ended(old(cloud.st), old(service.annotations), old(api.annotations), spec,
                    cloud.st, service.annotations, api.annotations, issued, r.Ok?)
      ensures r.Ok? ==>
                var id := IdOf(service.annotations);
                id in cloud.st.nlbs && r.value == cloud.st.nlbs[id].ip
      ensures NamesDecide(r, ServicesBefore(old(cloud.st), IdOf(old(service.annotations))), Ok(spec))
      ensures r.Err? ==> Unfinished(r.error, old(cloud.st), Ok(spec), IdOf(old(service.annotations)))
      ensures Counted(old(cloud.faults), cloud.faults, r) && CountedPatch(old(api.faults), api.faults, r)
    {
      ghost var st0, a0, s0 := cloud.st, service.annotations, api.annotations;
      var fetched;
      fetched, issued := FetchOrCreate(service, spec);
      if fetched.Err? {
        EndedEarly(st0, a0, s0, spec, cloud.st, service.annotations, api.annotations, issued);
        return Err(fetched.error), issued;
      }
      ghost var more;
      r, more := UpdateFetched(service, spec, fetched.value, st0, a0, s0, issued);
      ConcatAssociative(old(cloud.log), issued, more);
      issued := issued + more;
    }

    /** An Ensure run once the annotations are resolved: build the spec, then act on it. */
    method EnsureBuilt(service: Service) returns (r: Result<string, Error>, ghost issued: seq<Call>)
      requires cloud.st.Valid()
      modifies cloud, api, service
      ensures cloud.st.Valid() && cloud.log == old(cloud.log) + issued
      ensures OwnKeysOnly(old(service.annotations), service.annotations)
      ensures OwnKeysOnly(old(api.annotations), api.annotations)
      ensures r.Ok? && old(service.annotations) == old(api.annotations) ==> service.annotations == api.annotations
      ensures EnsureRan(old(cloud.st), Build(service.manifest, service.annotations, parsers),
                        IdOf(old(service.annotations)), cloud.st, issued, r.Ok?)
      ensures r.Ok? ==>
                var id := IdOf(service.annotations);
                id in cloud.st.nlbs && r.value == cloud.st.nlbs[id].ip
      ensures IsExternal(old(service.annotations)) ==> service.annotations == old(service.annotations)
      ensures PoolOf(service.annotations) == PoolOf(old(service.annotations))
      ensures Build(service.manifest, old(service.annotations), parsers).Err? ==>
                r.Err? && issued == [] && cloud.st == old(cloud.st) && cloud.log == old(cloud.log)
      ensures IdTrail(old(cloud.st), old(service.annotations), old(api.annotations),
                      cloud.st, service.annotations, api.annotations, issued, r.Ok?)
      ensures NamesDecide(r, ServicesBefore(old(cloud.st), IdOf(old(service.annotations))),
                          Build(service.manifest, service.annotations, parsers))
      ensures r.Err? ==> Unfinished(r.error, old(cloud.st), Build(service.manifest, service.annotations, parsers),
                                    IdOf(old(service.annotations)))
      ensures Counted(old(cloud.faults), cloud.faults, r) && CountedPatch(old(api.faults), api.faults, r)
    {
      ghost var a := service.annotations;
      var target := BuildLoadBalancerFromAnnotations(service, parsers);
      if target.Err? { return Err(target.error), []; }
      r, issued := EnsureResolved(service, target.value);
      SettingTheId(service.manifest, a, service.annotations, old(cloud.st).FreshId(), parsers);
    }

    /** Creates or updates the NLB of a Service and returns its address. */
    method EnsureLoadBalancer(service: Service, nodes: seq<string>)
      returns (r: Result<string, Error>, ghost issued: seq<Call>)
      requires cloud.st.Valid()
      modifies cloud, api, service, directory
      ensures cloud.st.Valid() && cloud.log == old(cloud.log) + issued
      ensures OwnKeysOnly(old(service.annotations), service.annotations)
      ensures OwnKeysOnly(old(api.annotations), api.annotations)
      ensures r.Ok? && old(service.annotations) == old(api.annotations) ==> service.annotations == api.annotations
      ensures var a0, a1 := old(service.annotations), service.annotations;
              var fetchedId := if IsExternal(a0) then IdOf(a1) else IdOf(a0);
              EnsureRan(old(cloud.st), Build(service.manifest, a1, parsers), fetchedId, cloud.st, issued, r.Ok?)
      ensures r.Ok? ==>
                var id := IdOf(service.annotations);
                id in cloud.st.nlbs && r.value == cloud.st.nlbs[id].ip
      ensures !IsExternal(old(service.annotations)) && old(service.annotations) == old(api.annotations) ==>
                IdTrail(old(cloud.st), old(service.annotations), old(api.annotations),
                        cloud.st, service.annotations, api.annotations, issued, r.Ok?)
      ensures r.Ok? || issued != [] ==>
                PoolChosen(directory, nodes, old(service.annotations), PoolOf(service.annotations))
      ensures r.Ok? ==> NamedNLB(old(cloud.st), old(service.annotations), IdOf(service.annotations))
      ensures Build(service.manifest, old(service.annotations), parsers).Err? ==>
                r.Err? && issued == [] && cloud.st == old(cloud.st) && cloud.log == old(cloud.log)
      ensures var a0, a1 := old(service.annotations), service.annotations;
              var fetchedId := if IsExternal(a0) then IdOf(a1) else IdOf(a0);
              NamesDecide(r, ServicesBefore(old(cloud.st), fetchedId), Build(service.manifest, a1, parsers))
      ensures r.Err? && r.error == Rejected ==> !UniquePorts(service.manifest)
      ensures r.Err? ==>
                var a0, a1 := old(service.annotations), service.annotations;
                || Unresolved(r.error, old(cloud.st), directory, nodes, a0)
                || Unfinished(r.error, old(cloud.st), Build(service.manifest, a1, parsers),
                              if IsExternal(a0) then IdOf(a1) else IdOf(a0))
      ensures Counted(old(cloud.faults) + old(directory.faults), cloud.faults + directory.faults, r)
      ensures CountedPatch(old(api.faults), api.faults, r)
      ensures var a0, a1 := old(service.annotations), service.annotations;
              var fetchedId := if IsExternal(a0) then IdOf(a1) else IdOf(a0);
              cloud.faults == old(cloud.faults) && directory.faults == old(directory.faults)
              && api.faults == old(api.faults) ==>
                Succeeds(r, old(cloud.st), directory, nodes, service.manifest, parsers, a0, a1, fetchedId)
    {
      ghost var st0, a0 := cloud.st, service.annotations;
      var resolved := ResolveAnnotations(service, nodes);
      assert IsExternal(service.annotations) == IsExternal(a0) by { OwnAnnotations(); }
      BuildIgnoresOwnWrites(service.manifest, a0, service.annotations, parsers);
      if resolved.Err? {
        ResolvedIfEnsurable(resolved.error, st0, directory, nodes, service.manifest, parsers, a0);
        return Err(resolved.error), [];
      }
      ghost var a1 := service.annotations;
      r, issued := EnsureBuilt(service);
      assert (IsExternal(a0) ==> IdOf(service.annotations) == IdOf(a1))
             && IdOf(a1) == if IsExternal(a0) then IdOf(service.annotations) else IdOf(a0);
      if r.Err? {
        FinishedIfEnsurable(r.error, st0, directory, nodes, service.manifest, parsers, a0, a1, service.annotations);
      }
    }
  }

  /** Nothing but a fault, or a service without a name, stands in the way of an Ensure run. The
      annotated NLB may have vanished, unless the Service is external. */
  ghost predicate Ensurable(st: CloudState, d: Directory, nodes: seq<string>, m: Manifest, parsers: Parsers,
                            a: Annotations) {
    && Build(m, a, parsers).Ok? && UniquePorts(m)
    && (exists pool :: PoolChosen(d, nodes, a, pool))
    && (IsExternal(a) ==> exists id :: NamedNLB(st, a, id) && Live(st, id))
  }

  /** A run that met no fault: it succeeds, unless there is a service without a name to add. */
  ghost predicate Succeeds(r: Result<string, Error>, st: CloudState, d: Directory, nodes: seq<string>, m: Manifest,
                           parsers: Parsers, a: Annotations, b: Annotations, id: string) {
    Ensurable(st, d, nodes, m, parsers, a) ==>
      Build(m, b, parsers).Ok? && (r.Ok? <==> !Unnamed(ServicesBefore(st, id), Build(m, b, parsers).value.services))
  }

  lemma ResolvedIfEnsurable(e: Error, st: CloudState, d: Directory, nodes: seq<string>, m: Manifest, parsers: Parsers,
                            a: Annotations)
    requires Unresolved(e, st, d, nodes, a)
    ensures e !in {Rejected, ServiceNotVisible}
    ensures Ensurable(st, d, nodes, m, parsers, a) ==> e in {Fault, NotPatched}
  {
    if Ensurable(st, d, nodes, m, parsers, a) {
      var pool :| PoolChosen(d, nodes, a, pool);
      if IsExternal(a) {
        var id :| NamedNLB(st, a, id) && Live(st, id);
      } else {
        assert NamedNLB(st, a, "");
      }
    }
  }

  /** `a` is resolved to `b`, and the run leaves `c`, which builds the same. */
  lemma FinishedIfEnsurable(e: Error, st: CloudState, d: Directory, nodes: seq<string>, m: Manifest, parsers: Parsers,
                            a: Annotations, b: Annotations, c: Annotations)
    requires OwnKeysOnly(a, c) && (IsExternal(a) ==> IdOf(b) == IdOf(c))
    requires NamedNLB(st, a, IdOf(b)) && Unfinished(e, st, Build(m, c, parsers), IdOf(b))
    ensures e == Rejected ==> !UniquePorts(m)
    ensures Ensurable(st, d, nodes, m, parsers, a) && e !in {Fault, NotPatched} ==>
              e == ServiceNotVisible && Build(m, c, parsers).Ok?
              && Unnamed(ServicesBefore(st, IdOf(b)), Build(m, c, parsers).value.services)
  {
    BuildIgnoresOwnWrites(m, a, c, parsers);
    BuildFaithful(m, c, parsers);
    if Ensurable(st, d, nodes, m, parsers, a) && IsExternal(a) {
      var id :| NamedNLB(st, a, id) && Live(st, id);
      assert id == IdOf(b);
    }
  }

  /** How the ID annotation moves in an Ensure run on a Service that is not external: it moves
      only to the ID of an NLB created by the run, and a run that gets past annotating, or
      succeeds, has recorded that ID with the API server. */
  ghost predicate IdTrail(st: CloudState, local: Annotations, server: Annotations,
                          st': CloudState, local': Annotations, server': Annotations,
                          issued: seq<Call>, ok: bool) {
    var newId := st.FreshId();
    && (st'.nextNlb == st.nextNlb ==> IdOf(local') == IdOf(local) && IdOf(server') == IdOf(server))
    && (st'.nextNlb != st.nextNlb ==>
          && st'.nextNlb == st.nextNlb + 1 && newId in st'.nlbs
          && (IdOf(server') == IdOf(server) || IdOf(server') == newId))
    && (st'.nextNlb != st.nextNlb && (ok || |issued| > 1) && local == server ==> IdOf(server') == newId)
  }

  /** The trail of an Ensure run is laid by its first stage: reconciling creates nothing. */
  lemma TrailLaid(st: CloudState, local: Annotations, server: Annotations, spec: Spec, st1: CloudState,
                  local': Annotations, server': Annotations, begun: seq<Call>, begunOk: bool,
                  st': CloudState, more: seq<Call>, ok: bool)
    requires Begun(st, local, server, spec, st1, local', server', begun, begunOk)
    requires begunOk || (more == [] && !ok)
    requires begunOk && local == server ==> local' == server'
    requires st'.nextNlb == st1.nextNlb && st'.nlbs.Keys == st1.nlbs.Keys
    ensures IdTrail(st, local, server, st', local', server', begun + more, ok)
  {}

  /** The end of an Ensure run on resolved annotations: the calls it may leave behind, the trail
      of the ID, and no annotation written but the ID. */
  ghost predicate Ended(st: CloudState, local: Annotations, server: Annotations, spec: Spec,
                        st': CloudState, local': Annotations, server': Annotations, issued: seq<Call>, ok: bool) {
    && MaybeSet(local, local', IdAnnotation, st.FreshId()) && MaybeSet(server, server', IdAnnotation, st.FreshId())
    && (spec.external ==> local' == local && server' == server)
    && (ok && local == server ==> local' == server')
    && EnsureRan(st, Ok(spec), IdOf(local), st', issued, ok)
    && IdTrail(st, local, server, st', local', server', issued, ok)
  }

  lemma EndedEarly(st: CloudState, local: Annotations, server: Annotations, spec: Spec,
                   st': CloudState, local': Annotations, server': Annotations, issued: seq<Call>)
    requires Begun(st, local, server, spec, st', local', server', issued, false)
    ensures Ended(st, local, server, spec, st', local', server', issued, false)
  {
    if issued != [] { CreationBegun(st, spec, st', issued); }
    assert issued + [] == issued;
    TrailLaid(st, local, server, spec, st', local', server', issued, false, st', [], false);
  }

  lemma EndedAfterUpdate(st: CloudState, local: Annotations, server: Annotations, spec: Spec, st1: CloudState,
                         local': Annotations, server': Annotations, begun: seq<Call>,
                         st': CloudState, more: seq<Call>, ok: bool)
    requires st.Valid() && st1.Valid()
    requires Begun(st, local, server, spec, st1, local', server', begun, true)
    requires local == server ==> local' == server'
    requires UpdateRan(st1, Ok(spec), IdOf(local'), st', more, ok)
    ensures Ended(st, local, server, spec, st', local', server', begun + more, ok)
    ensures var id := IdOf(local'); id in st'.nlbs && id in st1.nlbs && st'.nlbs[id].ip == st1.nlbs[id].ip
  {
    EnsureComposed(st, spec, IdOf(local), st1, begun, IdOf(local'), st', more, ok);
    TrailLaid(st, local, server, spec, st1, local', server', begun, true, st', more, ok);
  }

  /** The services that the second stage meets are those of the NLB that was named, or none. */
  lemma BegunServices(st: CloudState, local: Annotations, server: Annotations, spec: Spec,
                      st': CloudState, local': Annotations, server': Annotations, issued: seq<Call>)
    requires Begun(st, local, server, spec, st', local', server', issued, true)
    requires IdOf(local') in st'.nlbs
    ensures st'.nlbs[IdOf(local')].services == ServicesBefore(st, IdOf(local))
  {}

  /** What was built before the ID was annotated is what is built after. */
  lemma BegunKeepsTarget(m: Manifest, parsers: Parsers, st: CloudState, local: Annotations, server: Annotations,
                         spec: Spec, st': CloudState, local': Annotations, server': Annotations, issued: seq<Call>)
    requires Begun(st, local, server, spec, st', local', server', issued, true)
    ensures Build(m, local, parsers) == Build(m, local', parsers)
  {
    SettingTheId(m, local, local', st.FreshId(), parsers);
  }

  lemma SettingTheId(m: Manifest, a: Annotations, b: Annotations, id: string, parsers: Parsers)
    requires MaybeSet(a, b, IdAnnotation, id)
    ensures OwnKeysOnly(a, b) && Build(m, a, parsers) == Build(m, b, parsers)
  {
    OwnAnnotations();
    BuildIgnoresOwnWrites(m, a, b, parsers);
  }

  lemma CreationBegun(st: CloudState, spec: Spec, st': CloudState, issued: seq<Call>)
    requires issued == [CreateNLB(spec.name, spec.description)]
    requires st' == st || st' == Effect(st, issued[0])
    ensures Ran(st, CreationPlan(st, spec), st', issued, false)
  {
    ExecSnoc(st, [], issued[0]);
    assert [] + issued == issued;
  }

  /** A reconciliation that follows a fetch or a creation completes the Ensure run. */
  lemma EnsureComposed(st0: CloudState, spec: Spec, id: string, st1: CloudState, begun: seq<Call>, id1: string,
                       st2: CloudState, more: seq<Call>, ok: bool)
    requires st0.Valid() && st1.Valid()
    requires var create := CreateNLB(spec.name, spec.description);
             if id != "" && id in st0.nlbs then begun == [] && st1 == st0 && id1 == id
             else !spec.external && begun == [create] && st1 == Effect(st0, create) && id1 == st0.FreshId()
    requires UpdateRan(st1, Ok(spec), id1, st2, more, ok)
    ensures EnsureRan(st0, Ok(spec), id, st2, begun + more, ok)
    ensures st2.nextNlb == st1.nextNlb && st2.nlbs.Keys == st1.nlbs.Keys
    ensures id1 in st2.nlbs && st2.nlbs[id1].ip == st1.nlbs[id1].ip
  {
    AddressKept(st1, Ok(spec), id1, st2, more, ok);
    if !(id != "" && id in st0.nlbs) { CreationContinued(st0, spec, st1, st2, more, ok); }
    assert [] + more == more;
  }

  lemma CreationContinued(st: CloudState, spec: Spec, st1: CloudState, st2: CloudState, more: seq<Call>, ok: bool)
    requires var create := CreateNLB(spec.name, spec.description); st1 == Effect(st, create)
    requires UpdateRan(st1, Ok(spec), st.FreshId(), st2, more, ok)
    ensures Ran(st, CreationPlan(st, spec), st2, [CreateNLB(spec.name, spec.description)] + more, ok)
  {
    var newId, create := st.FreshId(), CreateNLB(spec.name, spec.description);
    var nlb := FreshNLB(newId, spec.name, spec.description);
    assert st1.nlbs[newId] == nlb;
    ExecSnoc(st, [], create);
    assert [] + [create] == [create];
    RanDone(st, [create]);
    if !(!ok && more == [] && st2 == st1) {
      var l: seq<LBService> :| Lists(l, nlb.services) && Ran(st1, Plan(newId, nlb, l, spec), st2, more, ok);
      assert l == [];
      RanThen(st, [create], st1, Plan(newId, nlb, [], spec), st2, more, ok);
    } else {
      RanStopped(st, [create], Plan(newId, nlb, [], spec));
    }
  }

  /** A reconciliation keeps the NLB, its address, and the other NLBs. */
  lemma AddressKept(st: CloudState, target: Result<Spec, Error>, id: string, st': CloudState, issued: seq<Call>, ok: bool)
    requires st.Valid() && UpdateRan(st, target, id, st', issued, ok)
    ensures st'.nextNlb == st.nextNlb && st'.nlbs.Keys == st.nlbs.Keys
    ensures id in st.nlbs ==> st'.nlbs[id].ip == st.nlbs[id].ip
  {
    if !(!ok && issued == [] && st' == st) {
      UpdateSafe(st, target.value, id, st', issued, ok);
    }
  }
}
