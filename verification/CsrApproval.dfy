/** The agent that approves certificate signing requests (CSRs) of cluster nodes: a decision
    per CSR, and a loop over watches that are restarted for ever. */
module CsrApproval {
  import opened Prelude
  import opened Instances

  /** What a request asks for, once parsed. */
  datatype Request = Request(dnsNames: seq<string>, ips: seq<string>)

  /** A CSR as submitted; its conditions live in the API server. */
  datatype Csr = Csr(groups: seq<string>, request: string)

  datatype EventType = Added | Modified | Deleted

  /** A watch event: the CSR it names, None for an object of another type, and how many
      conditions the CSR had when the event was sent, which may be out of date by now. */
  datatype WatchEvent = WatchEvent(kind: EventType, csr: Option<string>, conditions: nat)

  const RequiredGroups := ["system:authenticated", "system:nodes"]

  // ----- The decision ----------------------------------------------------------------------

  /** The IP addresses of an instance. The node object is consulted only when the instance has
      a private network. */
  function NodeAddrs(p: Provider, i: Instance): seq<string> {
    (if i.publicIp.Some? then [i.publicIp.value] else [])
    + (if i.ipv6 != "" then [i.ipv6] else [])
    + (if i.privateNetworks > 0 && ProvidedIp(NodeOfInstance(p, i)).Some?
       then [ProvidedIp(NodeOfInstance(p, i)).value] else [])
  }

  /** The addresses of an instance: its public IP and its IPv6 address, if it has them, and, if it
      has a private network, the IP given to the kubelet of its node, if that is known. */
  lemma NodeAddrsExactly(p: Provider, i: Instance, a: string)
    ensures a in NodeAddrs(p, i) <==>
              || i.publicIp == Some(a)
              || (i.ipv6 != "" && a == i.ipv6)
              || (i.privateNetworks > 0 && KnownIp(p, i) == Some(a))
  {}

  predicate Covers(p: Provider, i: Instance, ips: seq<string>) {
    forall j | 0 <= j < |ips| :: ips[j] in NodeAddrs(p, i)
  }

  /** The verdict of the scan: that of the last instance whose name matches. */
  function Decision(p: Provider, instances: seq<Instance>, dns: string, ips: seq<string>): bool {
    if instances == [] then false
    else
      var last := instances[|instances| - 1];
      if EqualFold(last.name, dns) then Covers(p, last, ips)
      else Decision(p, instances[..|instances| - 1], dns, ips)
  }

  /** Some instance of that name has all the addresses. */
  predicate SomeMatch(p: Provider, instances: seq<Instance>, dns: string, ips: seq<string>) {
    exists i :: 0 <= i < |instances| && EqualFold(instances[i].name, dns) && Covers(p, instances[i], ips)
  }

  ghost predicate UniqueNames(instances: seq<Instance>) {
    forall i, j | 0 <= i < j < |instances| :: !EqualFold(instances[i].name, instances[j].name)
  }

  /** Instance `i` is the last that bears the name. */
  ghost predicate LastNamed(instances: seq<Instance>, dns: string, i: nat) {
    && i < |instances| && EqualFold(instances[i].name, dns)
    && forall j | i < j < |instances| :: !EqualFold(instances[j].name, dns)
  }

  /** The verdict is that of the last instance of the name, and no instance of the name means no. */
  lemma {:induction false} DecisionIsLastMatch(p: Provider, instances: seq<Instance>, dns: string, ips: seq<string>)
    ensures forall i: nat | LastNamed(instances, dns, i) ::
              Decision(p, instances, dns, ips) == Covers(p, instances[i], ips)
    ensures Decision(p, instances, dns, ips) ==> exists i: nat :: LastNamed(instances, dns, i)
    decreases |instances|
  {
    if instances != [] {
      var n := |instances| - 1;
      var before := instances[..n];
      DecisionIsLastMatch(p, before, dns, ips);
      if EqualFold(instances[n].name, dns) {
        assert LastNamed(instances, dns, n);
      } else {
        forall i: nat ensures LastNamed(instances, dns, i) <==> LastNamed(before, dns, i) {
          assert forall j | 0 <= j < n :: instances[j] == before[j];
        }
      }
    }
  }

  lemma {:induction false} SomeNameIsLast(instances: seq<Instance>, dns: string, i: nat) returns (k: nat)
    requires i < |instances| && EqualFold(instances[i].name, dns)
    ensures LastNamed(instances, dns, k)
    decreases |instances| - i
  {
    if j :| i < j < |instances| && EqualFold(instances[j].name, dns) {
      k := SomeNameIsLast(instances, dns, j);
    } else {
      k := i;
    }
  }

  /** With distinct instance names the scan approves exactly when some instance matches. */
  lemma {:induction false} DecisionWithUniqueNames(p: Provider, instances: seq<Instance>, dns: string, ips: seq<string>)
    requires UniqueNames(instances)
    ensures Decision(p, instances, dns, ips) <==> SomeMatch(p, instances, dns, ips)
  {
    DecisionIsLastMatch(p, instances, dns, ips);
    if i :| 0 <= i < |instances| && EqualFold(instances[i].name, dns) && Covers(p, instances[i], ips) {
      var k := SomeNameIsLast(instances, dns, i);
      assert i == k;
    }
  }

  /** The last instance of the name covers whatever any instance of that name has. */
  ghost predicate LastCoversAll(p: Provider, instances: seq<Instance>, dns: string, last: nat)
    requires last < |instances|
  {
    forall i | 0 <= i < |instances| && EqualFold(instances[i].name, dns) ::
      Covers(p, instances[last], NodeAddrs(p, instances[i]))
  }

  lemma CoversTrans(p: Provider, last: Instance, i: Instance, ips: seq<string>)
    requires Covers(p, last, NodeAddrs(p, i)) && Covers(p, i, ips)
    ensures Covers(p, last, ips)
  {
    forall j | 0 <= j < |ips| ensures ips[j] in NodeAddrs(p, last) {
      var h :| 0 <= h < |NodeAddrs(p, i)| && NodeAddrs(p, i)[h] == ips[j];
    }
  }

  /** The verdict is "some instance matches", for every list of addresses, exactly when the last
      instance of the name has all the addresses of its namesakes. */
  lemma DecisionExactly(p: Provider, instances: seq<Instance>, dns: string, last: nat)
    requires LastNamed(instances, dns, last)
    ensures (forall ips :: Decision(p, instances, dns, ips) <==> SomeMatch(p, instances, dns, ips))
            <==> LastCoversAll(p, instances, dns, last)
  {
    forall ips: seq<string>
      ensures Decision(p, instances, dns, ips) <==> Covers(p, instances[last], ips)
      ensures Decision(p, instances, dns, ips) ==> SomeMatch(p, instances, dns, ips)
      ensures LastCoversAll(p, instances, dns, last) && SomeMatch(p, instances, dns, ips) ==>
                Covers(p, instances[last], ips)
    {
      DecisionIsLastMatch(p, instances, dns, ips);
      if i :| 0 <= i < |instances| && EqualFold(instances[i].name, dns) && Covers(p, instances[i], ips) {
        if LastCoversAll(p, instances, dns, last) { CoversTrans(p, instances[last], instances[i], ips); }
      }
    }
    if i :| 0 <= i < |instances| && EqualFold(instances[i].name, dns)
            && !Covers(p, instances[last], NodeAddrs(p, instances[i])) {
      assert Covers(p, instances[i], NodeAddrs(p, instances[i]));
      assert SomeMatch(p, instances, dns, NodeAddrs(p, instances[i]));
    }
  }

  /** Without an instance of the name there is nothing to overrule. */
  lemma NobodyNamed(p: Provider, instances: seq<Instance>, dns: string, ips: seq<string>)
    requires forall i | 0 <= i < |instances| :: !EqualFold(instances[i].name, dns)
    ensures !Decision(p, instances, dns, ips) && !SomeMatch(p, instances, dns, ips)
  {
    DecisionIsLastMatch(p, instances, dns, ips);
  }

  /** With two instances of one name a match can be overruled by the later instance. */
  lemma LaterNamesakeOverrules(p: Provider)
    ensures var a := Instance("1", "n", "", 0, Some("10.0.0.1"), "");
            var b := Instance("2", "N", "", 0, Some("10.0.0.2"), "");
            SomeMatch(p, [a, b], "n", ["10.0.0.1"]) && !Decision(p, [a, b], "n", ["10.0.0.1"])
  {
    var a := Instance("1", "n", "", 0, Some("10.0.0.1"), "");
    var b := Instance("2", "N", "", 0, Some("10.0.0.2"), "");
    assert EqualFold([a, b][0].name, "n") && Covers(p, [a, b][0], ["10.0.0.1"]);
    assert Lower("N") == Lower("n");
    assert ["10.0.0.1"][0] !in NodeAddrs(p, b) by { assert "10.0.0.1"[7] != "10.0.0.2"[7]; }
  }

  ghost predicate HasGroups(csr: Csr) {
    forall g | g in RequiredGroups :: g in csr.groups
  }

  /** All that an approval takes, given the instances listed when the CSR was checked. */
  ghost predicate Eligible(p: Provider, parse: string -> Option<Request>, csr: Csr, conditions: nat,
                           instances: seq<Instance>) {
    && conditions == 0 && HasGroups(csr)
    && parse(csr.request).Some? && |parse(csr.request).value.dnsNames| == 1
    && Decision(p, instances, parse(csr.request).value.dnsNames[0], parse(csr.request).value.ips)
  }

  /** What eligibility comes to: no conditions, both groups, one DNS name, and all IP addresses
      among those of the last instance of that name, read without case. */
  lemma EligibleMeans(p: Provider, parse: string -> Option<Request>, csr: Csr, conditions: nat, instances: seq<Instance>)
    ensures Eligible(p, parse, csr, conditions, instances) <==>
              && conditions == 0 && "system:authenticated" in csr.groups && "system:nodes" in csr.groups
              && parse(csr.request).Some? && |parse(csr.request).value.dnsNames| == 1
              && var dns, ips := parse(csr.request).value.dnsNames[0], parse(csr.request).value.ips;
                 exists k: nat :: && k < |instances| && Lower(instances[k].name) == Lower(dns)
                                  && (forall j | k < j < |instances| :: Lower(instances[j].name) != Lower(dns))
                                  && (forall a | a in ips ::
                                        || instances[k].publicIp == Some(a)
                                        || (instances[k].ipv6 != "" && a == instances[k].ipv6)
                                        || (instances[k].privateNetworks > 0 && KnownIp(p, instances[k]) == Some(a)))
  {
    assert RequiredGroups[0] == "system:authenticated" && RequiredGroups[1] == "system:nodes";
    if parse(csr.request).Some? && |parse(csr.request).value.dnsNames| == 1 {
      var dns, ips := parse(csr.request).value.dnsNames[0], parse(csr.request).value.ips;
      DecisionIsLastMatch(p, instances, dns, ips);
      forall k: nat, a | k < |instances|
        ensures a in NodeAddrs(p, instances[k]) <==>
                  || instances[k].publicIp == Some(a)
                  || (instances[k].ipv6 != "" && a == instances[k].ipv6)
                  || (instances[k].privateNetworks > 0 && KnownIp(p, instances[k]) == Some(a))
      {
        NodeAddrsExactly(p, instances[k], a);
      }
      forall k: nat | k < |instances|
        ensures LastNamed(instances, dns, k) <==>
                  Lower(instances[k].name) == Lower(dns)
                  && forall j | k < j < |instances| :: Lower(instances[j].name) != Lower(dns)
        ensures Covers(p, instances[k], ips) <==> forall a | a in ips :: a in NodeAddrs(p, instances[k])
      {}
    }
  }

  method HasRequiredGroups(csr: Csr) returns (r: bool)
    ensures r <==> HasGroups(csr)
  {
    for i := 0 to |RequiredGroups|
      invariant forall h | 0 <= h < i :: RequiredGroups[h] in csr.groups
    {
      var ok := false;
      for j := 0 to |csr.groups|
        invariant !ok && RequiredGroups[i] !in csr.groups[..j]
      {
        if RequiredGroups[i] == csr.groups[j] {
          ok := true;
          break;
        }
      }
      if !ok {
        assert csr.groups[..|csr.groups|] == csr.groups;
        assert RequiredGroups[i] in RequiredGroups;
        return false;
      }
    }
    return true;
  }

  method Decide(p: Provider, instances: seq<Instance>, dns: string, ips: seq<string>) returns (csrOk: bool)
    ensures csrOk == Decision(p, instances, dns, ips)
  {
    csrOk := false;
    for k := 0 to |instances|
      invariant csrOk == Decision(p, instances[..k], dns, ips)
    {
      var i := instances[k];
      assert instances[..k + 1][..k] == instances[..k];
      if EqualFold(i.name, dns) {
        var addrs := [];
        if i.publicIp.Some? { addrs := addrs + [i.publicIp.value]; }
        if i.ipv6 != "" { addrs := addrs + [i.ipv6]; }
        if i.privateNetworks > 0 {
          var node := p.nodes(i.name);
          if node.None? { node := p.nodes(Lower(i.name)); }
          if node.Some? && node.value.providedIp.Some? { addrs := addrs + [node.value.providedIp.value]; }
        }
        assert addrs == NodeAddrs(p, i);
        csrOk := true;
        for j := 0 to |ips|
          invariant csrOk && forall h | 0 <= h < j :: ips[h] in addrs
        {
          if ips[j] !in addrs {
            csrOk := false;
            break;
          }
        }
      }
    }
    assert instances[..|instances|] == instances;
  }

  // ----- The loop --------------------------------------------------------------------------

  /** An approval that took effect: the conditions the CSR was seen with when the agent decided,
      and the instances it decided on. */
  datatype Approval = Approval(name: string, seen: nat, instances: seq<Instance>)

  /** How the handling of an event ends: the CSR is not for the agent to approve; a call failed, the
      CSR has changed since the event was sent; it is approved. */
  datatype Verdict = Skipped | Faulted | Conflicted | Approved

  /** An event that was handled, with the instances that were listed for it. */
  datatype Record = Record(event: WatchEvent, verdict: Verdict, listed: seq<Instance>)

  class ApprovalStore {
    const csrs: map<string, Csr>
    var conditions: map<string, nat>       // how many conditions each CSR has
    var approvals: seq<Approval>           // the approvals by this agent that took effect
    var faults: nat                        // how many calls of the agent failed
    var listings: seq<seq<Instance>>       // the lists of instances the API has answered with

    function ConditionsOf(name: string): nat
      reads this
    {
      if name in conditions then conditions[name] else 0
    }

    /** Each approval added a condition to those it was decided on, so that a later approval of
        the same CSR would have been decided on more. */
    ghost predicate Valid()
      reads this
    {
      && (forall a | a in approvals :: ConditionsOf(a.name) > a.seen)
      && (forall i, j | 0 <= i < j < |approvals| && approvals[i].name == approvals[j].name ::
            approvals[i].seen < approvals[j].seen)
    }

    /** Others may add conditions, never remove any. */
    method Interfere()
      requires Valid()
      modifies this`conditions
      ensures Valid() && forall n :: ConditionsOf(n) >= old(ConditionsOf(n))
    {
      var decided: set<string> := *;
      conditions := map n | n in conditions.Keys + decided ::
        ConditionsOf(n) + if n in decided then 1 else 0;
    }

    /** Writes one more condition than the `seen` ones, unless the CSR has changed since: that
        is a conflict. */
    method UpdateApproval(name: string, seen: nat, instances: seq<Instance>) returns (v: Verdict)
      requires Valid()
      modifies this
      ensures Valid() && v in {Faulted, Conflicted, Approved}
      ensures v == Approved ==> approvals == old(approvals) + [Approval(name, seen, instances)]
      ensures v == Faulted ==> approvals == old(approvals) || approvals == old(approvals) + [Approval(name, seen, instances)]
      ensures v == Conflicted ==> approvals == old(approvals) && old(ConditionsOf(name)) != seen
      ensures approvals != old(approvals) ==> old(ConditionsOf(name)) == seen && ConditionsOf(name) == seen + 1
      ensures approvals == old(approvals) ==> conditions == old(conditions)
      ensures faults == old(faults) + if v == Faulted then 1 else 0
      ensures listings == old(listings)
    {
      var outcome: Outcome := *;
      if outcome == Refused {
        faults := faults + 1;
        return Faulted;
      }
      if ConditionsOf(name) != seen { return Conflicted; }
      conditions := conditions[name := seen + 1];
      approvals := approvals + [Approval(name, seen, instances)];
      if outcome == Done { return Approved; }
      faults := faults + 1;
      return Faulted;
    }

    /** The API's list of instances, whatever it is at that moment. */
    method ListInstances() returns (r: Option<seq<Instance>>)
      modifies this`faults, this`listings
      ensures faults == old(faults) + if r.None? then 1 else 0
      ensures listings == old(listings) + if r.Some? then [r.value] else []
    {
      var available: bool := *;
      if available {
        var instances: seq<Instance> := *;
        listings := listings + [instances];
        return Some(instances);
      }
      faults := faults + 1;
      return None;
    }
  }

  class Agent {
    const store: ApprovalStore
    const provider: Provider
    const parse: string -> Option<Request>

    constructor (store: ApprovalStore, provider: Provider, parse: string -> Option<Request>)
      ensures this.store == store && this.provider == provider && this.parse == parse
    {
      this.store := store;
      this.provider := provider;
      this.parse := parse;
    }

    /** The CSR was eligible with the conditions it was seen with, that is with none. */
    ghost predicate Justified(a: Approval) {
      a.name in store.csrs && Eligible(provider, parse, store.csrs[a.name], a.seen, a.instances)
    }

    /** Whether the instances are to be consulted: an added CSR without conditions, with both
        groups, that parses to a request for exactly one DNS name. */
    ghost predicate Checkable(e: WatchEvent) {
      && e.kind == Added && e.csr.Some? && e.csr.value in store.csrs && e.conditions == 0
      && var csr := store.csrs[e.csr.value];
         && "system:authenticated" in csr.groups && "system:nodes" in csr.groups
         && parse(csr.request).Some? && |parse(csr.request).value.dnsNames| == 1
    }

    lemma ApprovableIsCheckable(e: WatchEvent, listed: seq<Instance>)
      ensures Approvable(e, listed) ==> Checkable(e)
      ensures Checkable(e) ==> HasGroups(store.csrs[e.csr.value])
    {
      assert RequiredGroups[0] == "system:authenticated" && RequiredGroups[1] == "system:nodes";
    }

    /** Whether the CSR of the event is for the agent to approve, as the event shows it. */
    ghost predicate Approvable(e: WatchEvent, listed: seq<Instance>) {
      && e.kind == Added && e.csr.Some? && e.csr.value in store.csrs
      && Eligible(provider, parse, store.csrs[e.csr.value], e.conditions, listed)
    }

    /** The API was asked for its instances once, and answered with these. */
    ghost predicate Consulted(before: seq<seq<Instance>>, listed: seq<Instance>)
      reads store
    {
      store.listings == before + [listed]
    }

    /** One event. The listing of instances is whatever the API answers at that moment, and
        others may touch any CSR until the approval is written. */
    method HandleEvent(e: WatchEvent) returns (v: Verdict, ghost listed: seq<Instance>)
      requires store.Valid()
      modifies store
      ensures store.Valid()
      ensures store.faults == old(store.faults) + if v == Faulted then 1 else 0
      ensures v == Skipped ==>
                && store.approvals == old(store.approvals)
                && if Checkable(e) then Consulted(old(store.listings), listed) && !Approvable(e, listed)
                   else store.listings == old(store.listings)
      ensures v == Approved ==>
                && Consulted(old(store.listings), listed) && Approvable(e, listed)
                && store.approvals == old(store.approvals) + [Approval(e.csr.value, 0, listed)]
                && old(store.ConditionsOf(e.csr.value)) == 0
      ensures v == Conflicted ==>
                Consulted(old(store.listings), listed) && Approvable(e, listed) && store.approvals == old(store.approvals)
                && store.ConditionsOf(e.csr.value) > e.conditions
      ensures v == Faulted ==>
                || (store.approvals == old(store.approvals)
                    && (store.listings == old(store.listings) || Consulted(old(store.listings), listed)))
                || (Consulted(old(store.listings), listed) && Approvable(e, listed)
                    && store.approvals == old(store.approvals) + [Approval(e.csr.value, 0, listed)])
    {
      listed := [];
      ApprovableIsCheckable(e, []);
      if e.kind != Added { return Skipped, listed; }
      if e.csr.None? || e.csr.value !in store.csrs { return Skipped, listed; }
      var name := e.csr.value;
      var csr := store.csrs[name];
      if e.conditions > 0 { return Skipped, listed; }
      var hasGroups := HasRequiredGroups(csr);
      if !hasGroups { return Skipped, listed; }
      var parsed := parse(csr.request);
      if parsed.None? || |parsed.value.dnsNames| != 1 { return Skipped, listed; }
      var instances := store.ListInstances();
      if instances.None? { return Faulted, listed; }
      listed := instances.value;
      var csrOk := Decide(provider, instances.value, parsed.value.dnsNames[0], parsed.value.ips);
      if !csrOk { return Skipped, listed; }
      store.Interfere();
      v := store.UpdateApproval(name, e.conditions, instances.value);
    }

    /** What the record of a handled event says: it was skipped because there was nothing to check
        or the instances the API listed do not bear it out, or it was approved on what the API
        listed and the approval is there, or there was a conflict; else a call failed. */
    ghost predicate Accounted(r: Record)
      reads store
    {
      && (r.verdict == Skipped ==>
            Checkable(r.event) ==> r.listed in store.listings && !Approvable(r.event, r.listed))
      && (r.verdict == Approved ==>
            && r.listed in store.listings && Approvable(r.event, r.listed)
            && Approval(r.event.csr.value, 0, r.listed) in store.approvals)
      && (r.verdict == Conflicted ==> r.listed in store.listings && Approvable(r.event, r.listed))
    }

    /** One event, after others have had their turn; earlier records stay true. */
    method HandleNext(e: WatchEvent, ghost records: seq<Record>) returns (ghost r: Record)
      requires store.Valid() && forall x | x in records :: Accounted(x)
      modifies store
      ensures store.Valid() && old(store.approvals) <= store.approvals && old(store.listings) <= store.listings
      ensures r.event == e && Accounted(r) && forall x | x in records :: Accounted(x)
      ensures store.faults == old(store.faults) + if r.verdict == Faulted then 1 else 0
      ensures forall i | |old(store.approvals)| <= i < |store.approvals| :: Justified(store.approvals[i])
    {
      store.Interfere();
      ghost var approvals, listings := store.approvals, store.listings;
      ghost var v, listed := HandleEvent(e);
      assert forall x | x in approvals :: x in store.approvals;
      assert forall x | x in listings :: x in store.listings;
      r := Record(e, v, listed);
    }

    /** One watch: every event is handled, in order, and accounted for; every new approval was
        decided on a CSR without conditions that was eligible. Others act in between. */
    method HandleAll(events: seq<WatchEvent>) returns (ghost records: seq<Record>)
      requires store.Valid()
      modifies store
      ensures store.Valid() && old(store.approvals) <= store.approvals && old(store.listings) <= store.listings
      ensures Events(records) == events && forall r | r in records :: Accounted(r)
      ensures store.faults == old(store.faults) + FaultCount(records)
      ensures forall i | |old(store.approvals)| <= i < |store.approvals| :: Justified(store.approvals[i])
    {
      ghost var n := |store.approvals|;
      records := [];
      for k := 0 to |events|
        invariant store.Valid() && old(store.approvals) <= store.approvals && old(store.listings) <= store.listings
        invariant Events(records) == events[..k]
        invariant forall r | r in records :: Accounted(r)
        invariant store.faults == old(store.faults) + FaultCount(records)
        invariant forall i | n <= i < |store.approvals| :: Justified(store.approvals[i])
      {
        ghost var r := HandleNext(events[k], records);
        OneMoreRecord(records, r);
        records := records + [r];
        assert events[..k + 1] == events[..k] + [events[k]];
      }
      assert events[..|events|] == events;
    }

    /** Any finite number of watches, each any finite stream of events, however late they come
        and whatever others do in between: every event is handled and accounted for, every
        approval was justified, and no CSR is approved twice, or again. */
    method Run(watches: seq<seq<WatchEvent>>) returns (ghost records: seq<Record>)
      requires store.Valid()
      modifies store
      ensures store.Valid() && old(store.approvals) <= store.approvals && old(store.listings) <= store.listings
      ensures Events(records) == Flat(watches) && forall r | r in records :: Accounted(r)
      ensures store.faults == old(store.faults) + FaultCount(records)
      ensures forall i | |old(store.approvals)| <= i < |store.approvals| ::
                Justified(store.approvals[i]) && store.approvals[i].seen == 0
      ensures forall i, j | 0 <= i < j < |store.approvals| && |old(store.approvals)| <= j ::
                store.approvals[i].name != store.approvals[j].name
    {
      ghost var n := |store.approvals|;
      records := [];
      for w := 0 to |watches|
        invariant store.Valid() && old(store.approvals) <= store.approvals && old(store.listings) <= store.listings
        invariant Events(records) + Flat(watches[w..]) == Flat(watches)
        invariant forall r | r in records :: Accounted(r)
        invariant store.faults == old(store.faults) + FaultCount(records)
        invariant forall i | n <= i < |store.approvals| :: Justified(store.approvals[i])
      {
        assert watches[w..][0] == watches[w] && watches[w..][1..] == watches[w + 1..];
        ghost var approvals, listings := store.approvals, store.listings;
        ghost var more := HandleAll(watches[w]);
        assert forall x | x in approvals :: x in store.approvals;
        assert forall x | x in listings :: x in store.listings;
        MoreRecords(records, more);
        ConcatAssociative(Events(records), Events(more), Flat(watches[w + 1..]));
        records := records + more;
      }
      assert watches[|watches|..] == [];
    }
  }

  function Flat(watches: seq<seq<WatchEvent>>): seq<WatchEvent> {
    if watches == [] then [] else watches[0] + Flat(watches[1..])
  }

  function Events(records: seq<Record>): seq<WatchEvent> {
    seq(|records|, i requires 0 <= i < |records| => records[i].event)
  }

  function FaultCount(records: seq<Record>): nat {
    if records == [] then 0
    else FaultCount(records[..|records| - 1]) + if records[|records| - 1].verdict == Faulted then 1 else 0
  }

  lemma OneMoreRecord(records: seq<Record>, r: Record)
    ensures Events(records + [r]) == Events(records) + [r.event]
    ensures FaultCount(records + [r]) == FaultCount(records) + if r.verdict == Faulted then 1 else 0
  {
    assert (records + [r])[..|records|] == records;
  }

  lemma {:induction false} MoreRecords(a: seq<Record>, b: seq<Record>)
    ensures Events(a + b) == Events(a) + Events(b)
    ensures FaultCount(a + b) == FaultCount(a) + FaultCount(b)
    decreases |b|
  {
    if b == [] {
      assert a + b == a;
    } else {
      var m := |b| - 1;
      MoreRecords(a, b[..m]);
      assert b == b[..m] + [b[m]] && a + b == (a + b[..m]) + [b[m]];
      OneMoreRecord(a + b[..m], b[m]);
      OneMoreRecord(b[..m], b[m]);
    }
  }
}
