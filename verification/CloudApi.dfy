/** The load-balancer API as the controller meets it: every call may fail, with or without
    having taken effect. */
module CloudApi {
  import opened Prelude
  import opened LoadBalancerApi
  import opened UpdatePlan
  import opened ServiceSpec

  datatype Snapshot = Snapshot(id: string, name: string, description: string, ip: string, services: seq<LBService>)

  ghost predicate Describes(s: Snapshot, id: string, nlb: NLB) {
    && s.id == id && s.name == nlb.name && s.description == nlb.description && s.ip == nlb.ip
    && Lists(s.services, nlb.services)
  }

  lemma EnumerateOneMore(l: seq<LBService>, s: Services, k: Key)
    requires Enumerates(l, s) && k in s && k !in ListedKeys(l) && s[k].content.ServiceKey() == k
    ensures Enumerates(l + [s[k]], s) && ListedKeys(l + [s[k]]) == ListedKeys(l) + {k}
  {
    var m := l + [s[k]];
    assert m[|l|] == s[k] && forall i | 0 <= i < |l| :: m[i] == l[i];
    assert forall i | 0 <= i < |l| :: l[i].content.ServiceKey() in ListedKeys(l);
    forall j ensures j in ListedKeys(m) <==> j in ListedKeys(l) || j == k {
      if j in ListedKeys(l) {
        var i :| 0 <= i < |l| && l[i].content.ServiceKey() == j;
        assert m[i].content.ServiceKey() == j;
      }
    }
  }

  method ListServices(services: Services) returns (l: seq<LBService>)
    requires forall k | k in services :: services[k].content.ServiceKey() == k
    ensures Lists(l, services)
  {
    var keys := services.Keys;
    l := [];
    while keys != {}
      invariant keys <= services.Keys
      invariant Enumerates(l, services) && ListedKeys(l) == services.Keys - keys
      decreases |keys|
    {
      var k :| k in keys;
      EnumerateOneMore(l, services, k);
      l := l + [services[k]];
      keys := keys - {k};
    }
  }

  class Cloud {
    var st: CloudState
    var log: seq<Call>    // the mutating calls issued, in order, whatever became of them
    var faults: nat       // how many calls of any kind the network or the API failed

    /** The six mutating wrappers: start the operation, then wait for it. A failed start has
        no effect; a failed wait may hide either fate. */
    method Do(c: Call) returns (r: Result<(), Error>)
      requires st.Valid()
      modifies this
      ensures st.Valid() && log == old(log) + [c]
      ensures r.Ok? ==> Admissible(old(st), c) && st == Effect(old(st), c)
      ensures r.Err? ==> st == old(st) || st == Effect(old(st), c)
      ensures r.Err? ==> r.error == Fault || (r.error == Rejected && !Admissible(old(st), c))
      ensures Counted(old(faults), faults, r)
    {
      log := log + [c];
      ValidKept(st, c);
      var outcome: Outcome := *;
      if outcome == Refused {
        faults := faults + 1;
        return Err(Fault);
      }
      if !Admissible(st, c) { return Err(Rejected); }
      st := Effect(st, c);
      if outcome == Done { return Ok(()); }
      faults := faults + 1;
      return Err(Fault);
    }

    method GetLoadBalancer(id: string) returns (r: Result<Snapshot, Error>)
      requires st.Valid()
      modifies this`faults
      ensures r.Ok? ==> id in st.nlbs && Describes(r.value, id, st.nlbs[id])
      ensures r.Err? ==> r.error == Fault || (r.error == NotFound && id !in st.nlbs)
      ensures Counted(old(faults), faults, r)
    {
      var available: bool := *;
      if !available {
        faults := faults + 1;
        return Err(Fault);
      }
      if id !in st.nlbs { return Err(NotFound); }
      var nlb := st.nlbs[id];
      var services := ListServices(nlb.services);
      return Ok(Snapshot(id, nlb.name, nlb.description, nlb.ip, services));
    }

    /** Lists the NLBs and finds the one whose name or ID is `nameOrId`; anything but a single
        match is an error. */
    method FindLoadBalancer(nameOrId: string) returns (r: Result<string, Error>)
      modifies this`faults
      ensures r.Ok? ==> OnlyNLB(st, nameOrId, r.value)
      ensures r.Err? ==> r.error == Fault || (r.error == ExternalUnknown && forall id :: !OnlyNLB(st, nameOrId, id))
      ensures Counted(old(faults), faults, r)
    {
      var available: bool := *;
      if !available {
        faults := faults + 1;
        return Err(Fault);
      }
      var found := set id | id in st.nlbs && (id == nameOrId || st.nlbs[id].name == nameOrId);
      if |found| != 1 {
        forall id ensures OnlyNLB(st, nameOrId, id) ==> |found| == 1 {
          if OnlyNLB(st, nameOrId, id) { OnlyOne(st, nameOrId, id, found); }
        }
        return Err(ExternalUnknown);
      }
      var id :| id in found;
      assert found == {id} by {
        assert |found - {id}| == 0;
      }
      assert forall other | other in st.nlbs && Bears(st, other, nameOrId) :: other in found;
      return Ok(id);
    }
  }

  predicate Bears(st: CloudState, id: string, nameOrId: string) {
    id in st.nlbs && (id == nameOrId || st.nlbs[id].name == nameOrId)
  }

  /** The NLB is the only one with that name or ID. */
  ghost predicate OnlyNLB(st: CloudState, nameOrId: string, id: string) {
    Bears(st, id, nameOrId) && forall other | Bears(st, other, nameOrId) :: other == id
  }

  lemma OnlyOne(st: CloudState, nameOrId: string, id: string, found: set<string>)
    requires OnlyNLB(st, nameOrId, id) && forall x :: x in found <==> Bears(st, x, nameOrId)
    ensures found == {id}
  {}
}
