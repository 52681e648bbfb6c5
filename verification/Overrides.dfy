/** Statically configured instance overrides and how they are looked up. */
module Overrides {
  import opened Prelude

  const ProviderPrefix := "exoscale://"

  datatype NodeAddress = NodeAddress(kind: string, address: string)

  datatype Override = Override(
    name: string, external: bool, externalId: string, kind: string, addresses: seq<NodeAddress>, region: string)

  /** Foreign functions: matching a node name against the pattern between the slashes (None when
      the pattern is invalid), the digest that default IDs are built from, and label cleaning. */
  datatype Foreign = Foreign(
    matches: (string, string) -> Option<bool>, digest: string -> string, clean: string -> string)

  datatype Config = Config(overrides: seq<Override>, externalOnly: bool, foreign: Foreign)
  {
    function DefaultExternalId(name: string): string {
      "external-" + foreign.digest(name)
    }

    /** The ID that stands for an override in a provider ID. */
    function IdFor(o: Override): string {
      if o.externalId != "" then o.externalId else DefaultExternalId(o.name)
    }

    predicate NamedExactly(o: Override, node: string) {
      o.name != "" && node == o.name
    }

    predicate NamedByPattern(o: Override, node: string) {
      HasPrefix(o.name, "/") && HasSuffix(o.name, "/") && foreign.matches(o.name, node) == Some(true)
    }

    function ByName(node: string): Option<Override> {
      var exact := FirstWhere(overrides, o => NamedExactly(o, node));
      if exact.Some? then exact else FirstWhere(overrides, o => NamedByPattern(o, node))
    }

    predicate HasExplicitId(o: Override, id: string) {
      o.externalId != "" && id == o.externalId
    }

    predicate HasDefaultId(o: Override, id: string) {
      o.externalId == "" && id == DefaultExternalId(o.name)
    }

    function ByProviderId(providerId: string): Option<Override> {
      var id := TrimPrefix(providerId, ProviderPrefix);
      var explicit := FirstWhere(overrides, o => HasExplicitId(o, id));
      if explicit.Some? then explicit else FirstWhere(overrides, o => HasDefaultId(o, id))
    }

    /** Names are distinct, so are explicit IDs, no explicit ID is the default ID of a name, and
        the digest is injective on the names in use. */
    ghost predicate Unambiguous() {
      forall i, j | 0 <= i < j < |overrides| ::
        overrides[i].name != overrides[j].name && IdFor(overrides[i]) != IdFor(overrides[j])
    }

    /** No override has the ID of a real instance. */
    ghost predicate ApartFrom(isInstance: string -> bool) {
      forall o | o in overrides :: !isInstance(IdFor(o))
    }
  }

  function FirstWhere(os: seq<Override>, p: Override -> bool): Option<Override> {
    if os == [] then None
    else if p(os[0]) then Some(os[0])
    else FirstWhere(os[1..], p)
  }

  lemma {:induction false} FirstWhereFound(os: seq<Override>, p: Override -> bool)
    ensures match FirstWhere(os, p)
            case Some(o) => o in os && p(o)
            case None => forall o | o in os :: !p(o)
    decreases |os|
  {
    if os != [] {
      FirstWhereFound(os[1..], p);
      assert os == [os[0]] + os[1..];
    }
  }

  /** The look-up by name: a pass for exact names, then a pass for patterns. */
  method GetInstanceOverride(c: Config, node: string) returns (config: Option<Override>)
    ensures config == c.ByName(node)
  {
    config := None;
    var os := c.overrides;
    for i := 0 to |os|
      invariant FirstWhere(os, o => c.NamedExactly(o, node)) == FirstWhere(os[i..], o => c.NamedExactly(o, node))
    {
      var candidate := os[i];
      if candidate.name != "" && node == candidate.name {
        config := Some(candidate);
        break;
      }
    }
    if config.None? {
      for i := 0 to |os|
        invariant FirstWhere(os, o => c.NamedByPattern(o, node)) == FirstWhere(os[i..], o => c.NamedByPattern(o, node))
      {
        var candidate := os[i];
        if HasPrefix(candidate.name, "/") && HasSuffix(candidate.name, "/") {
          var match_ := c.foreign.matches(candidate.name, node);
          if match_.None? { continue; }
          if match_.value {
            config := Some(candidate);
            break;
          }
        }
      }
    }
  }

  /** The look-up by provider ID: a pass for explicit IDs, then a pass for default ones. */
  method GetInstanceOverrideByProviderId(c: Config, providerId: string) returns (config: Option<Override>)
    ensures config == c.ByProviderId(providerId)
  {
    config := None;
    var os, id := c.overrides, TrimPrefix(providerId, ProviderPrefix);
    for i := 0 to |os|
      invariant FirstWhere(os, o => c.HasExplicitId(o, id)) == FirstWhere(os[i..], o => c.HasExplicitId(o, id))
    {
      var candidate := os[i];
      if candidate.externalId != "" && id == candidate.externalId {
        config := Some(candidate);
        break;
      }
    }
    if config.None? {
      for i := 0 to |os|
        invariant FirstWhere(os, o => c.HasDefaultId(o, id)) == FirstWhere(os[i..], o => c.HasDefaultId(o, id))
      {
        var candidate := os[i];
        if candidate.externalId == "" && id == c.DefaultExternalId(candidate.name) {
          config := Some(candidate);
          break;
        }
      }
    }
  }

  /** What a look-up by provider ID finds has that ID, and it finds something if it can. */
  lemma ByProviderIdMeans(c: Config, providerId: string)
    ensures var id := TrimPrefix(providerId, ProviderPrefix);
            match c.ByProviderId(providerId)
            case Some(o) => o in c.overrides && c.IdFor(o) == id
            case None => forall o | o in c.overrides :: c.IdFor(o) != id
  {
    var id := TrimPrefix(providerId, ProviderPrefix);
    FirstWhereFound(c.overrides, p => c.HasExplicitId(p, id));
    FirstWhereFound(c.overrides, p => c.HasDefaultId(p, id));
    if c.ByProviderId(providerId).None? {
      forall o | o in c.overrides ensures c.IdFor(o) != id {
        assert !c.HasExplicitId(o, id) && !c.HasDefaultId(o, id);
      }
    }
  }

  /** Looking up an override by the provider ID built for it finds that override. */
  lemma OwnIdFound(c: Config, o: Override)
    requires c.Unambiguous() && o in c.overrides
    ensures c.ByProviderId(ProviderPrefix + c.IdFor(o)) == Some(o)
  {
    TrimPrefixOf(ProviderPrefix, c.IdFor(o));
    ByProviderIdMeans(c, ProviderPrefix + c.IdFor(o));
    var found := c.ByProviderId(ProviderPrefix + c.IdFor(o)).value;
    var i :| 0 <= i < |c.overrides| && c.overrides[i] == o;
    var j :| 0 <= j < |c.overrides| && c.overrides[j] == found;
    assert i == j;
  }

  lemma ByNameMeans(c: Config, node: string)
    ensures c.ByName(node).Some? ==>
              var o := c.ByName(node).value;
              o in c.overrides && (c.NamedExactly(o, node) || c.NamedByPattern(o, node))
    ensures c.ByName(node).None? ==>
              forall o | o in c.overrides :: !c.NamedExactly(o, node) && !c.NamedByPattern(o, node)
  {
    FirstWhereFound(c.overrides, o => c.NamedExactly(o, node));
    FirstWhereFound(c.overrides, o => c.NamedByPattern(o, node));
  }

  /** A pass finds the first override that qualifies. */
  lemma {:induction false} FirstWhereFirst(os: seq<Override>, p: Override -> bool)
    ensures match FirstWhere(os, p)
            case Some(o) => exists j :: 0 <= j < |os| && os[j] == o && p(os[j]) && forall i | 0 <= i < j :: !p(os[i])
            case None => forall i | 0 <= i < |os| :: !p(os[i])
    decreases |os|
  {
    if os != [] {
      var rest := os[1..];
      assert forall i | 1 <= i < |os| :: os[i] == rest[i - 1];
      FirstWhereFirst(rest, p);
      if p(os[0]) {
        assert os[0] == FirstWhere(os, p).value;
      } else if FirstWhere(rest, p).Some? {
        var j :| 0 <= j < |rest| && rest[j] == FirstWhere(rest, p).value && p(rest[j]) && forall i | 0 <= i < j :: !p(rest[i]);
        assert os[j + 1] == rest[j];
        forall i | 0 <= i < j + 1 ensures !p(os[i]) { if i > 0 { assert os[i] == rest[i - 1]; } }
      }
    }
  }

  predicate BearsName(o: Override, node: string) {
    o.name == node && node != ""
  }

  predicate BearsPattern(o: Override, node: string, foreign: Foreign) {
    && |o.name| >= 1 && o.name[0] == '/' && o.name[|o.name| - 1] == '/'
    && foreign.matches(o.name, node) == Some(true)
  }

  /** The look-up by name answers with the first override of exactly that name; only when there is
      none, with the first one whose pattern matches, wherever it stands in the list. */
  lemma ByNameExactly(c: Config, node: string)
    ensures var os := c.overrides;
            match c.ByName(node)
            case Some(o) =>
              exists j :: 0 <= j < |os| && os[j] == o
                && if BearsName(o, node) then forall i | 0 <= i < j :: !BearsName(os[i], node)
                   else && BearsPattern(o, node, c.foreign)
                        && (forall i | 0 <= i < j :: !BearsPattern(os[i], node, c.foreign))
                        && (forall i | 0 <= i < |os| :: !BearsName(os[i], node))
            case None =>
              forall i | 0 <= i < |os| :: !BearsName(os[i], node) && !BearsPattern(os[i], node, c.foreign)
  {
    var os := c.overrides;
    FirstWhereFirst(os, o => c.NamedExactly(o, node));
    FirstWhereFirst(os, o => c.NamedByPattern(o, node));
    forall o: Override ensures c.NamedByPattern(o, node) <==> BearsPattern(o, node, c.foreign) {
      Slashes(o.name);
    }
    assert forall o: Override :: c.NamedExactly(o, node) <==> BearsName(o, node);
  }

  lemma Slashes(name: string)
    ensures HasPrefix(name, "/") && HasSuffix(name, "/") <==> |name| >= 1 && name[0] == '/' && name[|name| - 1] == '/'
  {
    if |name| >= 1 { assert name[|name| - 1..] == [name[|name| - 1]]; }
  }

  /** The instance ID in a provider ID: what follows the prefix, or all of it without the prefix. */
  ghost predicate InstancePart(providerId: string, id: string) {
    providerId == "exoscale://" + id || (providerId == id && !("exoscale://" <= providerId))
  }

  lemma InstancePartOf(providerId: string)
    ensures InstancePart(providerId, TrimPrefix(providerId, ProviderPrefix))
  {
    if ProviderPrefix <= providerId { assert providerId == ProviderPrefix + providerId[|ProviderPrefix|..]; }
  }

  /** The look-up by provider ID answers with the first override with exactly that external ID;
      only when there is none, with the first one without an external ID whose name gives it. */
  lemma ByProviderIdExactly(c: Config, providerId: string, id: string)
    requires InstancePart(providerId, id)
    ensures var os := c.overrides;
            match c.ByProviderId(providerId)
            case Some(o) =>
              exists j :: 0 <= j < |os| && os[j] == o
                && if o.externalId != "" then o.externalId == id && forall i | 0 <= i < j :: os[i].externalId != id
                   else && id == "external-" + c.foreign.digest(o.name)
                        && (forall i | 0 <= i < j ::
                              os[i].externalId == "" ==> id != "external-" + c.foreign.digest(os[i].name))
                        && (forall i | 0 <= i < |os| :: os[i].externalId != "" ==> os[i].externalId != id)
            case None =>
              forall i | 0 <= i < |os| ::
                if os[i].externalId != "" then os[i].externalId != id else id != "external-" + c.foreign.digest(os[i].name)
  {
    var os := c.overrides;
    assert TrimPrefix(providerId, ProviderPrefix) == id by {
      if providerId == ProviderPrefix + id { TrimPrefixOf(ProviderPrefix, id); }
    }
    FirstWhereFirst(os, o => c.HasExplicitId(o, id));
    FirstWhereFirst(os, o => c.HasDefaultId(o, id));
  }
}
