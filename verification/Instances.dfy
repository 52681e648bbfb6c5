/** What the controller reports about nodes: the older calls by name or provider ID, the newer
    metadata call, and their agreement. */
module Instances {
  import opened Prelude
  import opened Overrides

  datatype Node = Node(name: string, providerId: string, systemUuid: string, providedIp: Option<string>)

  datatype Instance = Instance(
    id: string, name: string, typeId: string, privateNetworks: nat, publicIp: Option<string>, ipv6: string)

  datatype Error = NoOverride | EmptyProviderId | NodeUnknown | InstanceUnknown | TypeUnknown

  /** The configuration, the zone, and what the API and the API server answer; None stands for
      any error of the call. A type is answered by its name, family and size. */
  datatype Provider = Provider(
    config: Config, zone: string,
    instances: string -> Option<Instance>, types: string -> Option<string>, nodes: string -> Option<Node>)
  {
    predicate IsInstance(id: string) {
      instances(id).Some?
    }

    /** An instance is found under its own ID, which is not empty. */
    ghost predicate Faithful() {
      forall id | IsInstance(id) :: instances(id).value.id == id && id != ""
    }

    /** The hypotheses on the configuration. */
    ghost predicate WellConfigured() {
      config.Unambiguous() && config.ApartFrom(IsInstance) && Faithful()
    }
  }

  datatype Metadata = Metadata(
    providerId: string, kind: string, addresses: seq<NodeAddress>, zone: string, region: string)

  // ----- Shared pieces ---------------------------------------------------------------------

  function FormatProviderId(providerId: string): Result<string, Error> {
    if providerId == "" then Err(EmptyProviderId) else Ok(TrimPrefix(providerId, ProviderPrefix))
  }

  function InstanceByProviderId(p: Provider, providerId: string): Result<Instance, Error> {
    match FormatProviderId(providerId)
    case Err(e) => Err(e)
    case Ok(id) => if p.instances(id).Some? then Ok(p.instances(id).value) else Err(InstanceUnknown)
  }

  function TypeOf(p: Provider, i: Instance): Result<string, Error> {
    if p.types(i.typeId).Some? then Ok(p.config.foreign.clean(p.types(i.typeId).value)) else Err(TypeUnknown)
  }

  /** An address of an outward family; it doubles as internal when there is no internal one. */
  function Outward(address: string, alsoInternal: bool): seq<NodeAddress> {
    [NodeAddress("ExternalIP", address)] + if alsoInternal then [NodeAddress("InternalIP", address)] else []
  }

  function OutwardIfAny(address: Option<string>, alsoInternal: bool): seq<NodeAddress> {
    if address.Some? then Outward(address.value, alsoInternal) else []
  }

  function Ipv6Of(i: Instance): Option<string> {
    if i.ipv6 != "" then Some(i.ipv6) else None
  }

  /** The addresses of an instance; `provided` is the IP the kubelet was given, if known. It
      counts only when the instance has a private network. */
  function InstanceAddresses(i: Instance, provided: Option<string>): seq<NodeAddress> {
    var internal := i.privateNetworks > 0 && provided.Some?;
    [NodeAddress("Hostname", i.name)]
    + (if internal then [NodeAddress("InternalIP", provided.value)] else [])
    + OutwardIfAny(i.publicIp, !internal)
    + OutwardIfAny(Ipv6Of(i), !internal)
  }

  /** The node of an instance: under its name, or failing that under its name in lower case. */
  function NodeOfInstance(p: Provider, i: Instance): Option<Node> {
    if p.nodes(i.name).Some? then p.nodes(i.name) else p.nodes(Lower(i.name))
  }

  function ProvidedIp(n: Option<Node>): Option<string> {
    if n.Some? then n.value.providedIp else None
  }

  function RegionOf(o: Override): string {
    if o.region != "" then o.region else "external"
  }

  method CopyAddresses(addresses: seq<NodeAddress>) returns (r: seq<NodeAddress>)
    ensures r == addresses
  {
    var a := new NodeAddress[|addresses|];
    for i := 0 to |addresses|
      invariant a[..i] == addresses[..i]
    {
      a[i] := NodeAddress(addresses[i].kind, addresses[i].address);
    }
    assert a[..] == a[..|addresses|] == addresses[..|addresses|] == addresses;
    return a[..];
  }

  /** An address of the instance that faces outward. */
  predicate FacesOutward(i: Instance, a: string) {
    i.publicIp == Some(a) || (i.ipv6 != "" && i.ipv6 == a)
  }

  /** What the addresses of an instance have to be: one host name, the instance's name; as
      external ones those that face outward; as internal ones the one the kubelet was given, if
      there is a private network and it is known, and the outward ones otherwise. */
  ghost predicate AddressesOf(r: seq<NodeAddress>, i: Instance, provided: Option<string>) {
    && r != [] && r[0] == NodeAddress("Hostname", i.name)
    && (forall j | 0 < j < |r| :: r[j].kind == "ExternalIP" || r[j].kind == "InternalIP")
    && (forall a :: NodeAddress("ExternalIP", a) in r <==> FacesOutward(i, a))
    && (forall a :: NodeAddress("InternalIP", a) in r <==>
          if i.privateNetworks > 0 && provided.Some? then provided == Some(a) else FacesOutward(i, a))
  }

  /** The addresses are external ones from one set and internal ones from the other. */
  ghost predicate ByKind(r: seq<NodeAddress>, external: set<string>, internal: set<string>) {
    && (forall x | x in r :: x.kind == "ExternalIP" || x.kind == "InternalIP")
    && (forall a :: NodeAddress("ExternalIP", a) in r <==> a in external)
    && (forall a :: NodeAddress("InternalIP", a) in r <==> a in internal)
  }

  lemma ByKindConcat(r: seq<NodeAddress>, e: set<string>, i: set<string>, r': seq<NodeAddress>, e': set<string>, i': set<string>)
    requires ByKind(r, e, i) && ByKind(r', e', i')
    ensures ByKind(r + r', e + e', i + i')
  {
    assert forall x :: x in r + r' <==> x in r || x in r';
  }

  function SetOf(a: Option<string>): set<string> {
    if a.Some? then {a.value} else {}
  }

  lemma ByKindOutward(a: Option<string>, alsoInternal: bool)
    ensures ByKind(OutwardIfAny(a, alsoInternal), SetOf(a), if alsoInternal then SetOf(a) else {})
  {}

  lemma ByKindTwo(v4: Option<string>, v6: Option<string>, alsoInternal: bool)
    ensures ByKind(OutwardIfAny(v4, alsoInternal) + OutwardIfAny(v6, alsoInternal),
                   SetOf(v4) + SetOf(v6), if alsoInternal then SetOf(v4) + SetOf(v6) else {})
  {
    var none: set<string> := {};
    ByKindOutward(v4, alsoInternal);
    ByKindOutward(v6, alsoInternal);
    ByKindConcat(OutwardIfAny(v4, alsoInternal), SetOf(v4), if alsoInternal then SetOf(v4) else {},
                 OutwardIfAny(v6, alsoInternal), SetOf(v6), if alsoInternal then SetOf(v6) else {});
    assert none + none == none;
  }

  lemma ByKindGiven(given: string, r: seq<NodeAddress>, external: set<string>)
    requires ByKind(r, external, {})
    ensures ByKind([NodeAddress("InternalIP", given)] + r, external, {given})
  {
    assert forall x :: x in [NodeAddress("InternalIP", given)] + r <==> x == NodeAddress("InternalIP", given) || x in r;
  }

  lemma Facing(i: Instance)
    ensures forall a :: a in SetOf(i.publicIp) + SetOf(Ipv6Of(i)) <==> FacesOutward(i, a)
  {}

  lemma WithInternal(i: Instance, given: string)
    requires i.privateNetworks > 0
    ensures AddressesOf(
              [NodeAddress("Hostname", i.name)] + ([NodeAddress("InternalIP", given)]
                + (OutwardIfAny(i.publicIp, false) + OutwardIfAny(Ipv6Of(i), false))), i, Some(given))
  {
    var rest := OutwardIfAny(i.publicIp, false) + OutwardIfAny(Ipv6Of(i), false);
    Facing(i);
    ByKindTwo(i.publicIp, Ipv6Of(i), false);
    ByKindGiven(given, rest, SetOf(i.publicIp) + SetOf(Ipv6Of(i)));
    WithHost(i, Some(given), [NodeAddress("InternalIP", given)] + rest, SetOf(i.publicIp) + SetOf(Ipv6Of(i)), {given});
  }

  lemma WithoutInternal(i: Instance, provided: Option<string>)
    requires !(i.privateNetworks > 0 && provided.Some?)
    ensures AddressesOf([NodeAddress("Hostname", i.name)]
                          + (OutwardIfAny(i.publicIp, true) + OutwardIfAny(Ipv6Of(i), true)), i, provided)
  {
    var outward := SetOf(i.publicIp) + SetOf(Ipv6Of(i));
    Facing(i);
    ByKindTwo(i.publicIp, Ipv6Of(i), true);
    WithHost(i, provided, OutwardIfAny(i.publicIp, true) + OutwardIfAny(Ipv6Of(i), true), outward, outward);
  }

  lemma Associated(i: Instance, provided: Option<string>)
    ensures i.privateNetworks > 0 && provided.Some? ==>
              InstanceAddresses(i, provided) ==
              [NodeAddress("Hostname", i.name)] + ([NodeAddress("InternalIP", provided.value)]
                + (OutwardIfAny(i.publicIp, false) + OutwardIfAny(Ipv6Of(i), false)))
    ensures !(i.privateNetworks > 0 && provided.Some?) ==>
              InstanceAddresses(i, provided) ==
              [NodeAddress("Hostname", i.name)] + (OutwardIfAny(i.publicIp, true) + OutwardIfAny(Ipv6Of(i), true))
  {}

  lemma AddressesExactly(i: Instance, provided: Option<string>)
    ensures AddressesOf(InstanceAddresses(i, provided), i, provided)
  {
    Associated(i, provided);
    if i.privateNetworks > 0 && provided.Some? {
      WithInternal(i, provided.value);
    } else {
      WithoutInternal(i, provided);
    }
  }

  lemma WithHost(i: Instance, provided: Option<string>, r: seq<NodeAddress>, external: set<string>, internal: set<string>)
    requires ByKind(r, external, internal)
    requires forall a :: a in external <==> FacesOutward(i, a)
    requires forall a :: a in internal <==>
               if i.privateNetworks > 0 && provided.Some? then provided == Some(a) else FacesOutward(i, a)
    ensures AddressesOf([NodeAddress("Hostname", i.name)] + r, i, provided)
  {
    var all := [NodeAddress("Hostname", i.name)] + r;
    assert forall x :: x in all <==> x == NodeAddress("Hostname", i.name) || x in r;
    forall j | 0 < j < |all| ensures all[j].kind == "ExternalIP" || all[j].kind == "InternalIP" {
      assert all[j] == r[j - 1] && r[j - 1] in r;
    }
  }

  /** An instance with an outward address always has an internal one. */
  lemma AlwaysInternal(r: seq<NodeAddress>, i: Instance, provided: Option<string>, a: string)
    requires AddressesOf(r, i, provided) && FacesOutward(i, a)
    ensures exists b :: NodeAddress("InternalIP", b) in r
  {
    if !(i.privateNetworks > 0 && provided.Some?) { assert NodeAddress("InternalIP", a) in r; }
  }

  /** Builds the address list of an instance step by step. */
  method AppendAddresses(i: Instance, provided: Option<string>) returns (r: seq<NodeAddress>)
    ensures r == InstanceAddresses(i, provided) && AddressesOf(r, i, provided)
  {
    r := [NodeAddress("Hostname", i.name)];
    var foundInternalIp := false;
    if i.privateNetworks > 0 && provided.Some? {
      r := r + [NodeAddress("InternalIP", provided.value)];
      foundInternalIp := true;
    }
    if i.publicIp.Some? {
      r := r + [NodeAddress("ExternalIP", i.publicIp.value)];
      if !foundInternalIp { r := r + [NodeAddress("InternalIP", i.publicIp.value)]; }
    }
    if i.ipv6 != "" {
      r := r + [NodeAddress("ExternalIP", i.ipv6)];
      if !foundInternalIp { r := r + [NodeAddress("InternalIP", i.ipv6)]; }
    }
    assert r == InstanceAddresses(i, provided);
    AddressesExactly(i, provided);
  }

  // ----- The older calls -------------------------------------------------------------------

  function InstanceId(p: Provider, node: string): Result<string, Error> {
    var o := p.config.ByName(node);
    if o.Some? && o.value.external then Ok(p.config.IdFor(o.value))
    else if p.config.externalOnly then Err(NoOverride)
    else if p.nodes(node).None? then Err(NodeUnknown)
    else Ok(p.nodes(node).value.systemUuid)
  }

  function TypeByProviderId(p: Provider, providerId: string): Result<string, Error> {
    var o := p.config.ByProviderId(providerId);
    if o.Some? && o.value.kind != "" then Ok(o.value.kind)
    else if o.Some? && o.value.external then Ok("external")
    else if p.config.externalOnly then Err(NoOverride)
    else match InstanceByProviderId(p, providerId)
         case Err(e) => Err(e)
         case Ok(i) => TypeOf(p, i)
  }

  function TypeByName(p: Provider, node: string): Result<string, Error> {
    var o := p.config.ByName(node);
    if o.Some? && o.value.kind != "" then Ok(o.value.kind)
    else if o.Some? && o.value.external then Ok("external")
    else if p.config.externalOnly then Err(NoOverride)
    else match InstanceId(p, node)
         case Err(e) => Err(e)
         case Ok(id) => TypeByProviderId(p, id)
  }

  function AddressesByProviderId(p: Provider, providerId: string): Result<seq<NodeAddress>, Error> {
    var o := p.config.ByProviderId(providerId);
    if o.Some? && (o.value.addresses != [] || o.value.external) then Ok(o.value.addresses)
    else if p.config.externalOnly then Err(NoOverride)
    else match InstanceByProviderId(p, providerId)
         case Err(e) => Err(e)
         case Ok(i) => Ok(InstanceAddresses(i, ProvidedIp(NodeOfInstance(p, i))))
  }

  function AddressesByName(p: Provider, node: string): Result<seq<NodeAddress>, Error> {
    var o := p.config.ByName(node);
    if o.Some? && (o.value.addresses != [] || o.value.external) then Ok(o.value.addresses)
    else if p.config.externalOnly then Err(NoOverride)
    else match InstanceId(p, node)
         case Err(e) => Err(e)
         case Ok(id) => AddressesByProviderId(p, id)
  }

  function ZoneByProviderId(p: Provider, providerId: string): Result<string, Error> {
    var o := p.config.ByProviderId(providerId);
    if o.Some? && o.value.external then Ok(RegionOf(o.value))
    else if p.config.externalOnly then Err(NoOverride)
    else Ok(p.zone)
  }

  function ZoneByName(p: Provider, node: string): Result<string, Error> {
    var o := p.config.ByName(node);
    if o.Some? && o.value.external then Ok(RegionOf(o.value))
    else if p.config.externalOnly then Err(NoOverride)
    else if p.nodes(node).None? then Err(NodeUnknown)
    else ZoneByProviderId(p, p.nodes(node).value.systemUuid)
  }

  /** The instance that a provider ID stands for. */
  ghost predicate Behind(p: Provider, providerId: string, i: Instance) {
    providerId != "" && exists id :: InstancePart(providerId, id) && p.instances(id) == Some(i)
  }

  /** The IP given to the kubelet of the node under the instance's name, or failing that of the
      node under its name in lower case. */
  function KnownIp(p: Provider, i: Instance): Option<string> {
    if p.nodes(i.name).Some? then p.nodes(i.name).value.providedIp
    else if p.nodes(Lower(i.name)).Some? then p.nodes(Lower(i.name)).value.providedIp
    else None
  }

  lemma BehindFound(p: Provider, providerId: string)
    requires InstanceByProviderId(p, providerId).Ok?
    ensures Behind(p, providerId, InstanceByProviderId(p, providerId).value)
  {
    InstancePartOf(providerId);
  }

  method NodeAddressesByProviderId(p: Provider, providerId: string) returns (r: Result<seq<NodeAddress>, Error>)
    ensures r == AddressesByProviderId(p, providerId)
    ensures var o := p.config.ByProviderId(providerId);
            r.Ok? ==>
              if o.Some? && (o.value.addresses != [] || o.value.external) then r.value == o.value.addresses
              else !p.config.externalOnly
                   && exists i :: Behind(p, providerId, i) && AddressesOf(r.value, i, KnownIp(p, i))
  {
    var o := GetInstanceOverrideByProviderId(p.config, providerId);
    if o.Some? {
      if |o.value.addresses| > 0 {
        var copied := CopyAddresses(o.value.addresses);
        return Ok(copied);
      } else if o.value.external {
        return Ok([]);
      }
    }
    if p.config.externalOnly { return Err(NoOverride); }
    var found := InstanceByProviderId(p, providerId);
    if found.Err? { return Err(found.error); }
    var i, provided := found.value, None;
    if i.privateNetworks > 0 {
      var node := p.nodes(i.name);
      if node.None? { node := p.nodes(Lower(i.name)); }
      if node.Some? { provided := node.value.providedIp; }
    }
    var addresses := AppendAddresses(i, provided);
    BehindFound(p, providerId);
    assert AddressesOf(addresses, i, KnownIp(p, i));
    return Ok(addresses);
  }

  method NodeAddresses(p: Provider, node: string) returns (r: Result<seq<NodeAddress>, Error>)
    ensures r == AddressesByName(p, node)
  {
    var o := GetInstanceOverride(p.config, node);
    if o.Some? {
      if |o.value.addresses| > 0 {
        var copied := CopyAddresses(o.value.addresses);
        return Ok(copied);
      } else if o.value.external {
        return Ok([]);
      }
    }
    if p.config.externalOnly { return Err(NoOverride); }
    var id := InstanceId(p, node);
    if id.Err? { return Err(id.error); }
    r := NodeAddressesByProviderId(p, id.value);
  }

  /** A type that the API knows for some instance behind the provider ID. */
  ghost predicate TypeBehind(p: Provider, providerId: string, kind: string) {
    exists i :: Behind(p, providerId, i) && p.types(i.typeId).Some? && kind == p.config.foreign.clean(p.types(i.typeId).value)
  }

  /** Type and region by provider ID: an override's own, as far as it gives them; else, unless the
      API is not to be asked, those of the instance behind the ID and of the zone. */
  lemma AnswersByProviderId(p: Provider, providerId: string, kind: string, region: string)
    ensures var o := p.config.ByProviderId(providerId);
            && (TypeByProviderId(p, providerId) == Ok(kind) <==>
                  if o.Some? && o.value.kind != "" then kind == o.value.kind
                  else if o.Some? && o.value.external then kind == "external"
                  else !p.config.externalOnly && TypeBehind(p, providerId, kind))
            && (ZoneByProviderId(p, providerId) == Ok(region) <==>
                  if o.Some? && o.value.external then region == (if o.value.region != "" then o.value.region else "external")
                  else !p.config.externalOnly && region == p.zone)
  {
    if i :| Behind(p, providerId, i) {
      var id :| InstancePart(providerId, id) && p.instances(id) == Some(i);
      assert TrimPrefix(providerId, ProviderPrefix) == id by {
        if providerId == ProviderPrefix + id { TrimPrefixOf(ProviderPrefix, id); }
      }
      forall j | Behind(p, providerId, j) ensures j == i { BehindOnce(p, providerId, i, j); }
    } else if InstanceByProviderId(p, providerId).Ok? {
      BehindFound(p, providerId);
    }
  }

  /** The four answers by name: an external override gives them all; any other gives its type and
      addresses, if it has some; the rest is what the provider-ID calls say of the node's system
      UUID, unless the API is not to be asked or does not know the node. */
  lemma AnswersByName(p: Provider, node: string)
    ensures var o := p.config.ByName(node);
            if o.Some? && o.value.external then
              && InstanceId(p, node) == Ok(if o.value.externalId != "" then o.value.externalId
                                           else "external-" + p.config.foreign.digest(o.value.name))
              && TypeByName(p, node) == Ok(if o.value.kind != "" then o.value.kind else "external")
              && AddressesByName(p, node) == Ok(o.value.addresses)
              && ZoneByName(p, node) == Ok(if o.value.region != "" then o.value.region else "external")
            else
              && (o.Some? && o.value.kind != "" ==> TypeByName(p, node) == Ok(o.value.kind))
              && (o.Some? && o.value.addresses != [] ==> AddressesByName(p, node) == Ok(o.value.addresses))
              && (p.config.externalOnly || p.nodes(node).None? ==>
                    && InstanceId(p, node).Err? && ZoneByName(p, node).Err?
                    && (o.None? || o.value.kind == "" ==> TypeByName(p, node).Err?)
                    && (o.None? || o.value.addresses == [] ==> AddressesByName(p, node).Err?))
              && (!p.config.externalOnly && p.nodes(node).Some? ==>
                    var uuid := p.nodes(node).value.systemUuid;
                    && InstanceId(p, node) == Ok(uuid) && ZoneByName(p, node) == ZoneByProviderId(p, uuid)
                    && (o.None? || o.value.kind == "" ==> TypeByName(p, node) == TypeByProviderId(p, uuid))
                    && (o.None? || o.value.addresses == [] ==> AddressesByName(p, node) == AddressesByProviderId(p, uuid)))
  {}

  // ----- The metadata call -----------------------------------------------------------------

  function NodeOverride(p: Provider, n: Node): Option<Override> {
    if n.providerId != "" && p.config.ByProviderId(n.providerId).Some?
    then p.config.ByProviderId(n.providerId)
    else p.config.ByName(n.name)
  }

  function InstanceByNode(p: Provider, n: Node): Result<Instance, Error> {
    InstanceByProviderId(p, if n.providerId != "" then n.providerId else n.systemUuid)
  }

  function MetadataOf(p: Provider, n: Node): Result<Metadata, Error> {
    var o := NodeOverride(p, n);
    if o.Some? && o.value.external then
      Ok(Metadata(ProviderPrefix + p.config.IdFor(o.value), if o.value.kind != "" then o.value.kind else "external",
                  o.value.addresses, RegionOf(o.value), RegionOf(o.value)))
    else if p.config.externalOnly then Err(NoOverride)
    else
      match InstanceByNode(p, n)
      case Err(e) => Err(e)
      case Ok(i) =>
        var kind := if o.Some? && o.value.kind != "" then Ok(o.value.kind) else TypeOf(p, i);
        if kind.Err? then Err(kind.error)
        else Ok(Metadata(
          ProviderPrefix + i.id, kind.value,
          if o.Some? && o.value.addresses != [] then o.value.addresses else InstanceAddresses(i, n.providedIp),
          p.zone, p.zone))
  }

  /** What the metadata of a node have to be, field by field. An external override says it all;
      otherwise it is the instance behind the node, as far as no override says more. */
  ghost predicate Described(p: Provider, n: Node, o: Option<Override>, meta: Metadata) {
    && meta.zone == meta.region
    && if o.Some? && o.value.external then
         && meta.addresses == o.value.addresses
         && meta.region == (if o.value.region != "" then o.value.region else "external")
         && meta.kind == (if o.value.kind != "" then o.value.kind else "external")
         && meta.providerId == "exoscale://" + (if o.value.externalId != "" then o.value.externalId
                                                 else "external-" + p.config.foreign.digest(o.value.name))
       else
         && !p.config.externalOnly && meta.region == p.zone
         && exists i ::
              && Behind(p, if n.providerId != "" then n.providerId else n.systemUuid, i)
              && meta.providerId == "exoscale://" + i.id
              && (if o.Some? && o.value.kind != "" then meta.kind == o.value.kind
                  else p.types(i.typeId).Some? && meta.kind == p.config.foreign.clean(p.types(i.typeId).value))
              && (if o.Some? && o.value.addresses != [] then meta.addresses == o.value.addresses
                  else AddressesOf(meta.addresses, i, n.providedIp))
  }

  lemma MetadataMeans(p: Provider, n: Node)
    requires MetadataOf(p, n).Ok?
    ensures Described(p, n, NodeOverride(p, n), MetadataOf(p, n).value)
  {
    var o := NodeOverride(p, n);
    if !(o.Some? && o.value.external) {
      var i := InstanceByNode(p, n).value;
      BehindFound(p, if n.providerId != "" then n.providerId else n.systemUuid);
      AddressesExactly(i, n.providedIp);
    }
  }

  /** When the metadata call fails: without an external override, either the API is not to be
      asked, or it does not answer for the instance, or for its type when that is needed. */
  lemma MetadataFails(p: Provider, n: Node)
    ensures var o, id := NodeOverride(p, n), if n.providerId != "" then n.providerId else n.systemUuid;
            MetadataOf(p, n).Err? <==>
              && !(o.Some? && o.value.external)
              && (|| p.config.externalOnly
                  || (forall i :: !Behind(p, id, i))
                  || ((o.None? || o.value.kind == "") && exists i :: Behind(p, id, i) && p.types(i.typeId).None?))
  {
    var id := if n.providerId != "" then n.providerId else n.systemUuid;
    if i :| Behind(p, id, i) {
      var part :| InstancePart(id, part) && p.instances(part) == Some(i);
      assert TrimPrefix(id, ProviderPrefix) == part by {
        if id == ProviderPrefix + part { TrimPrefixOf(ProviderPrefix, part); }
      }
      forall j | Behind(p, id, j) ensures j == i { BehindOnce(p, id, i, j); }
    } else if InstanceByProviderId(p, id).Ok? {
      BehindFound(p, id);
    }
  }

  lemma BehindOnce(p: Provider, providerId: string, i: Instance, j: Instance)
    requires Behind(p, providerId, i) && Behind(p, providerId, j)
    ensures i == j
  {
    var a :| InstancePart(providerId, a) && p.instances(a) == Some(i);
    var b :| InstancePart(providerId, b) && p.instances(b) == Some(j);
    TrimPrefixOf(ProviderPrefix, a);
    TrimPrefixOf(ProviderPrefix, b);
    assert a == b;
  }

  /** An override is looked up by the node's provider ID first, then by its name. */
  lemma OverrideOfNode(p: Provider, n: Node)
    ensures n.providerId != "" && p.config.ByProviderId(n.providerId).Some? ==>
              NodeOverride(p, n) == p.config.ByProviderId(n.providerId)
    ensures n.providerId == "" || p.config.ByProviderId(n.providerId).None? ==>
              NodeOverride(p, n) == p.config.ByName(n.name)
  {}

  /** Fills the metadata field by field. */
  method InstanceMetadata(p: Provider, n: Node) returns (r: Result<Metadata, Error>)
    ensures r == MetadataOf(p, n)
    ensures r.Ok? ==> Described(p, n, NodeOverride(p, n), r.value)
  {
    if MetadataOf(p, n).Ok? { MetadataMeans(p, n); }
    var meta := Metadata("", "", [], "", "");
    var o := None;
    if n.providerId != "" { o := GetInstanceOverrideByProviderId(p.config, n.providerId); }
    if o.None? { o := GetInstanceOverride(p.config, n.name); }
    if o.Some? {
      var v := o.value;
      if v.kind != "" {
        meta := meta.(kind := v.kind);
      } else if v.external {
        meta := meta.(kind := "external");
      }
      for i := 0 to |v.addresses|
        invariant meta == Metadata("", meta.kind, v.addresses[..i], "", "")
        invariant meta.kind == if v.kind != "" then v.kind else if v.external then "external" else ""
      {
        meta := meta.(addresses := meta.addresses + [NodeAddress(v.addresses[i].kind, v.addresses[i].address)]);
      }
      assert v.addresses[..|v.addresses|] == v.addresses;
      if v.external {
        var externalId := v.externalId;
        if externalId == "" { externalId := p.config.DefaultExternalId(v.name); }
        meta := meta.(providerId := ProviderPrefix + externalId);
        var region := v.region;
        if region == "" { region := "external"; }
        meta := meta.(zone := region, region := region);
        return Ok(meta);
      }
    }
    if p.config.externalOnly { return Err(NoOverride); }
    var found := InstanceByNode(p, n);
    if found.Err? { return Err(found.error); }
    meta := meta.(providerId := ProviderPrefix + found.value.id, zone := p.zone, region := p.zone);
    if meta.kind == "" {
      var kind := TypeOf(p, found.value);
      if kind.Err? { return Err(kind.error); }
      meta := meta.(kind := kind.value);
    }
    if |meta.addresses| == 0 {
      var addresses := AppendAddresses(found.value, n.providedIp);
      meta := meta.(addresses := addresses);
    }
    return Ok(meta);
  }

  // ----- Metadata is a fixpoint of node initialisation --------------------------------------

  /** A real instance's ID finds no override. */
  lemma InstanceIdFindsNone(p: Provider, id: string)
    requires p.WellConfigured() && p.IsInstance(TrimPrefix(id, ProviderPrefix))
    ensures p.config.ByProviderId(id).None?
  {
    ByProviderIdMeans(p.config, id);
  }

  /** A node is backed by an instance only if no override claims its provider ID. */
  lemma BackedByInstance(p: Provider, n: Node)
    requires p.WellConfigured() && InstanceByNode(p, n).Ok?
    ensures NodeOverride(p, n) == p.config.ByName(n.name)
  {
    if n.providerId != "" { InstanceIdFindsNone(p, n.providerId); }
  }

  /** Writing the returned provider ID into the node does not change the answer. */
  lemma MetadataFixpoint(p: Provider, n: Node)
    requires p.WellConfigured() && MetadataOf(p, n).Ok?
    ensures MetadataOf(p, n.(providerId := MetadataOf(p, n).value.providerId)) == MetadataOf(p, n)
  {
    var o, meta := NodeOverride(p, n), MetadataOf(p, n).value;
    var n' := n.(providerId := meta.providerId);
    ByNameMeans(p.config, n.name);
    ByProviderIdMeans(p.config, n.providerId);
    if o.Some? && o.value.external {
      OwnIdFound(p.config, o.value);
    } else {
      var i := InstanceByNode(p, n).value;
      BackedByInstance(p, n);
      TrimPrefixOf(ProviderPrefix, i.id);
      assert InstanceByNode(p, n') == Ok(i);
      BackedByInstance(p, n');
    }
  }

  function ExternalKind(o: Override): string {
    if o.kind != "" then o.kind else "external"
  }

  predicate SameExternally(a: Override, b: Override) {
    ExternalKind(a) == ExternalKind(b) && a.addresses == b.addresses && RegionOf(a) == RegionOf(b)
  }

  /** An override that is not external, on top of the instance it shares its ID with, comes to
      the given type, addresses and region. */
  predicate OnInstance(p: Provider, o: Override, i: Instance, provided: Option<string>,
                       kind: string, addresses: seq<NodeAddress>, region: string) {
    && (if o.kind != "" then o.kind == kind else TypeOf(p, i) == Ok(kind))
    && (if o.addresses != [] then o.addresses else InstanceAddresses(i, provided)) == addresses
    && p.zone == region
  }

  /** A node with an external override keeps its answer exactly when the override found under
      that override's own ID has the same type, addresses and region. The other case is an
      override that is not external: it shares the ID with a real instance, if it describes
      the node at all, and the two together must come to the same. */
  lemma ExternalFixpointExactly(p: Provider, n: Node)
    requires NodeOverride(p, n).Some? && NodeOverride(p, n).value.external
    ensures
      var o := NodeOverride(p, n).value;
      var id := p.config.IdFor(o);
      && MetadataOf(p, n).Ok? && p.config.ByProviderId(ProviderPrefix + id).Some?
      && var found := p.config.ByProviderId(ProviderPrefix + id).value;
         MetadataOf(p, n.(providerId := MetadataOf(p, n).value.providerId)) == MetadataOf(p, n)
         <==> if found.external then SameExternally(o, found)
              else && !p.config.externalOnly && p.IsInstance(id) && p.instances(id).value.id == id
                   && OnInstance(p, found, p.instances(id).value, n.providedIp, ExternalKind(o), o.addresses, RegionOf(o))
  {
    var o := NodeOverride(p, n).value;
    var id := p.config.IdFor(o);
    ByNameMeans(p.config, n.name);
    ByProviderIdMeans(p.config, n.providerId);
    ByProviderIdMeans(p.config, ProviderPrefix + id);
    TrimPrefixOf(ProviderPrefix, id);
    if p.IsInstance(id) && p.instances(id).value.id != id {
      assert ProviderPrefix + p.instances(id).value.id != ProviderPrefix + id by {
        TrimPrefixOf(ProviderPrefix, p.instances(id).value.id);
      }
    }
  }

  /** A node backed by an instance keeps its answer exactly when it had a provider ID already, or
      no override bears the instance's ID, or the one that does says what the answer said. */
  lemma InstanceFixpointExactly(p: Provider, n: Node)
    requires p.Faithful() && MetadataOf(p, n).Ok?
    requires NodeOverride(p, n).Some? ==> !NodeOverride(p, n).value.external
    ensures
      var i, meta := InstanceByNode(p, n).value, MetadataOf(p, n).value;
      var found := p.config.ByProviderId(ProviderPrefix + i.id);
      MetadataOf(p, n.(providerId := meta.providerId)) == MetadataOf(p, n)
      <==> || n.providerId != "" || found.None?
           || (if found.value.external
               then ExternalKind(found.value) == meta.kind && found.value.addresses == meta.addresses
                    && RegionOf(found.value) == meta.region
               else OnInstance(p, found.value, i, n.providedIp, meta.kind, meta.addresses, meta.region))
  {
    var i, meta := InstanceByNode(p, n).value, MetadataOf(p, n).value;
    var n' := n.(providerId := meta.providerId);
    TrimPrefixOf(ProviderPrefix, i.id);
    assert i.id == TrimPrefix(if n.providerId != "" then n.providerId else n.systemUuid, ProviderPrefix);
    assert InstanceByNode(p, n') == Ok(i);
    if n.providerId != "" {
      assert p.config.ByProviderId(n'.providerId) == p.config.ByProviderId(n.providerId);
    } else {
      ByProviderIdMeans(p.config, n'.providerId);
    }
  }

  /** Two overrides with one external ID, and a node whose answer changes. */
  lemma SharedIdBreaksFixpoint(foreign: Foreign)
    ensures
      var a := Override("a", true, "x", "small", [], "");
      var b := Override("b", true, "x", "large", [], "");
      var p := Provider(Config([a, b], true, foreign), "zone", _ => None, _ => None, _ => None);
      var n := Node("b", "", "", None);
      && MetadataOf(p, n).Ok?
      && MetadataOf(p, n.(providerId := MetadataOf(p, n).value.providerId)) != MetadataOf(p, n)
  {
    var a := Override("a", true, "x", "small", [], "");
    var b := Override("b", true, "x", "large", [], "");
    var c := Config([a, b], true, foreign);
    ByNameMeans(c, "b");
    assert c.NamedExactly(b, "b") && c.ByName("b") == Some(b);
    TrimPrefixOf(ProviderPrefix, "x");
    assert c.HasExplicitId(a, "x") && c.ByProviderId(ProviderPrefix + "x") == Some(a);
  }

  // ----- The two interfaces agree -----------------------------------------------------------

  /** The node is the one stored under its name, its system UUID is no override's ID and bears
      no prefix, and its instance leads back to this very node. */
  ghost predicate Stored(p: Provider, n: Node) {
    && p.nodes(n.name) == Some(n)
    && !HasPrefix(n.systemUuid, ProviderPrefix)
    && (forall o | o in p.config.overrides :: p.config.IdFor(o) != n.systemUuid)
    && (InstanceByNode(p, n).Ok? ==> NodeOfInstance(p, InstanceByNode(p, n).value) == Some(n))
  }

  /** The provider ID is unset, or it is the node's own, or it is unknown while the override by
      name decides alone. */
  ghost predicate OwnProviderId(p: Provider, n: Node) {
    || n.providerId == ""
    || InstanceId(p, n.name) == Ok(TrimPrefix(n.providerId, ProviderPrefix))
    || (p.config.ByProviderId(n.providerId).None?
        && p.config.ByName(n.name).Some? && p.config.ByName(n.name).value.external)
  }

  ghost predicate Agree(p: Provider, node: string, meta: Metadata) {
    && TypeByName(p, node) == Ok(meta.kind)
    && AddressesByName(p, node) == Ok(meta.addresses)
    && InstanceId(p, node).Ok? && meta.providerId == ProviderPrefix + InstanceId(p, node).value
    && ZoneByName(p, node) == Ok(meta.region)
  }

  lemma SameOverride(p: Provider, n: Node)
    requires p.WellConfigured() && Stored(p, n) && OwnProviderId(p, n) && MetadataOf(p, n).Ok?
    ensures NodeOverride(p, n) == p.config.ByName(n.name)
  {
    var o := p.config.ByName(n.name);
    ByNameMeans(p.config, n.name);
    ByProviderIdMeans(p.config, n.providerId);
    if n.providerId != "" && o.Some? && o.value.external && p.config.ByProviderId(n.providerId).Some? {
      OwnIdFound(p.config, o.value);
      TrimPrefixOf(ProviderPrefix, p.config.IdFor(o.value));
      assert p.config.ByProviderId(n.providerId) == p.config.ByProviderId(ProviderPrefix + p.config.IdFor(o.value));
    }
  }

  /** Whatever the metadata call answers, the older calls answer the same for such a node. */
  lemma InterfacesAgree(p: Provider, n: Node)
    requires p.WellConfigured() && Stored(p, n) && OwnProviderId(p, n) && MetadataOf(p, n).Ok?
    ensures Agree(p, n.name, MetadataOf(p, n).value)
  {
    var o := p.config.ByName(n.name);
    SameOverride(p, n);
    if !(o.Some? && o.value.external) {
      var i := InstanceByNode(p, n).value;
      assert i.id == n.systemUuid;
      InstanceIdFindsNone(p, n.systemUuid);
      assert InstanceByProviderId(p, n.systemUuid) == Ok(i);
    }
  }

  /** Another provider ID makes the answers differ in that very ID. */
  lemma ForeignIdDiffers(p: Provider, n: Node)
    requires p.WellConfigured() && !OwnProviderId(p, n) && MetadataOf(p, n).Ok?
    ensures MetadataOf(p, n).value.providerId == ProviderPrefix + TrimPrefix(n.providerId, ProviderPrefix)
    ensures !Agree(p, n.name, MetadataOf(p, n).value)
  {
    var id, meta := TrimPrefix(n.providerId, ProviderPrefix), MetadataOf(p, n).value;
    ByProviderIdMeans(p.config, n.providerId);
    assert meta.providerId == ProviderPrefix + id;
    TrimPrefixOf(ProviderPrefix, id);
    if InstanceId(p, n.name).Ok? { TrimPrefixOf(ProviderPrefix, InstanceId(p, n.name).value); }
  }

  /** The two interfaces agree on such a node exactly when its provider ID is its own. */
  lemma AgreeExactly(p: Provider, n: Node)
    requires p.WellConfigured() && Stored(p, n) && MetadataOf(p, n).Ok?
    ensures Agree(p, n.name, MetadataOf(p, n).value) <==> OwnProviderId(p, n)
  {
    if OwnProviderId(p, n) { InterfacesAgree(p, n); } else { ForeignIdDiffers(p, n); }
  }

  /** A node that bears another override's provider ID. */
  lemma ForeignProviderIdDisagrees(foreign: Foreign)
    ensures
      var a := Override("a", true, "x", "small", [], "");
      var b := Override("b", true, "y", "large", [], "");
      var p := Provider(Config([a, b], true, foreign), "zone", _ => None, _ => None, _ => None);
      var n := Node("b", ProviderPrefix + "x", "", None);
      MetadataOf(p, n).Ok? && TypeByName(p, n.name).Ok? && TypeByName(p, n.name).value != MetadataOf(p, n).value.kind
  {
    var a := Override("a", true, "x", "small", [], "");
    var b := Override("b", true, "y", "large", [], "");
    var c := Config([a, b], true, foreign);
    ByNameMeans(c, "b");
    assert c.NamedExactly(b, "b") && c.ByName("b") == Some(b);
    TrimPrefixOf(ProviderPrefix, "x");
    assert c.HasExplicitId(a, "x") && c.ByProviderId(ProviderPrefix + "x") == Some(a);
  }
}
