/** Kubernetes Services: their manifest, their annotations, and the NLB they describe. */
module ServiceSpec {
  import opened Prelude
  import opened Naming
  import opened LoadBalancerApi
  import opened UpdatePlan

  type Annotations = map<string, string>

  const AnnotationPrefix := "service.beta.kubernetes.io/exoscale-loadbalancer-"
  const IdAnnotation := AnnotationPrefix + "id"
  const NameAnnotation := AnnotationPrefix + "name"
  const DescriptionAnnotation := AnnotationPrefix + "description"
  const ExternalAnnotation := AnnotationPrefix + "external"
  const StrategyAnnotation := AnnotationPrefix + "service-strategy"
  const ServiceNameAnnotation := AnnotationPrefix + "service-name"
  const ServiceDescriptionAnnotation := AnnotationPrefix + "service-description"
  const PoolAnnotation := AnnotationPrefix + "service-instancepool-id"
  const ClusterNameAnnotation := AnnotationPrefix + "sks-cluster-name"
  const NodepoolNameAnnotation := AnnotationPrefix + "service-sks-nodepool-name"
  const HcModeAnnotation := AnnotationPrefix + "service-healthcheck-mode"
  const HcPortAnnotation := AnnotationPrefix + "service-healthcheck-port"
  const HcUriAnnotation := AnnotationPrefix + "service-healthcheck-uri"
  const HcIntervalAnnotation := AnnotationPrefix + "service-healthcheck-interval"
  const HcTimeoutAnnotation := AnnotationPrefix + "service-healthcheck-timeout"
  const HcRetriesAnnotation := AnnotationPrefix + "service-healthcheck-retries"

  datatype Error =
    | Fault                 // the API failed; whether the call took effect is unknown
    | Rejected              // the API refused the call because of the state it met
    | NotFound
    | Invalid               // the Service describes no NLB
    | NoIdAnnotation
    | ServiceNotVisible     // an added service has no visible name
    | ExternalUnidentified | ExternalUnknown | ExternalNotCreated
    | ClusterUnknown | NodepoolUnknown | NodepoolWithoutCluster
    | SeveralPools | NoPool
    | NotPatched            // the API server did not confirm an annotation

  predicate Faulted<T>(r: Result<T, Error>) {
    r.Err? && r.error == Fault
  }

  /** Faults are counted where they strike, and each one ends the run it strikes: a run that
      reports no fault met none, and a run never invents one. */
  ghost predicate Counted<T>(before: nat, after: nat, r: Result<T, Error>) {
    after == before + if Faulted(r) then 1 else 0
  }

  /** The same for patches. */
  ghost predicate CountedPatch<T>(before: nat, after: nat, r: Result<T, Error>) {
    after == before + if r.Err? && r.error == NotPatched then 1 else 0
  }

  datatype ServicePort = ServicePort(port: int, nodePort: int, protocol: string)

  datatype Manifest = Manifest(
    uid: string, ports: seq<ServicePort>, trafficPolicy: string, healthCheckNodePort: int)

  /** Foreign parsers: durations in whole seconds, and decimal integers. */
  datatype Parsers = Parsers(seconds: string -> Option<int>, atoi: string -> Option<int>)

  /** The controller's own copy of a Service; only its annotations change. */
  class Service {
    const manifest: Manifest
    var annotations: Annotations

    constructor (manifest: Manifest, annotations: Annotations)
      ensures this.manifest == manifest && this.annotations == annotations
    {
      this.manifest := manifest;
      this.annotations := annotations;
    }
  }

  function Get(a: Annotations, k: string, default: string): string {
    if k in a then a[k] else default
  }

  function IsExternal(a: Annotations): bool {
    Lower(Get(a, ExternalAnnotation, "false")) == "true"
  }

  /** Conversion to an unsigned 16-bit integer keeps the low 16 bits. */
  function Uint16(x: int): int {
    x % 0x1_0000
  }

  function FormatInt(i: int): string {
    if i < 0 then "-" + Itoa(-i) else Itoa(i)
  }

  function PortName(uid: string, p: ServicePort): string {
    uid + "-" + FormatInt(p.port) + if p.protocol == "TCP" then "" else "-" + Lower(p.protocol)
  }

  predicate SupportedProtocol(p: ServicePort) {
    p.protocol == "TCP" || p.protocol == "UDP"
  }

  /** The annotations parse, for every consumer of them, and all protocols are supported. */
  predicate Buildable(m: Manifest, a: Annotations, parsers: Parsers) {
    && parsers.seconds(Get(a, HcIntervalAnnotation, "10s")).Some?
    && parsers.seconds(Get(a, HcTimeoutAnnotation, "5s")).Some?
    && parsers.atoi(Get(a, HcRetriesAnnotation, "1")).Some?
    && (Get(a, HcPortAnnotation, "") != "" && m.ports != [] ==> parsers.atoi(Get(a, HcPortAnnotation, "")).Some?)
    && (forall i | 0 <= i < |m.ports| :: SupportedProtocol(m.ports[i]))
  }

  function HealthCheckPort(m: Manifest, a: Annotations, parsers: Parsers, p: ServicePort): int {
    if Get(a, HcPortAnnotation, "") != "" then Uint16(parsers.atoi(Get(a, HcPortAnnotation, "")).GetOr(0))
    else if m.trafficPolicy == "Local" && m.healthCheckNodePort > 0 then Uint16(m.healthCheckNodePort)
    else Uint16(p.nodePort)
  }

  /** The NLB service one port asks for. Only a single-port Service may name and describe it. */
  function ContentFor(m: Manifest, a: Annotations, parsers: Parsers, p: ServicePort): Content {
    Content(
      if |m.ports| == 1 then Get(a, ServiceNameAnnotation, PortName(m.uid, p)) else PortName(m.uid, p),
      if |m.ports| == 1 then Get(a, ServiceDescriptionAnnotation, "") else "",
      p.port, p.nodePort, Lower(p.protocol), Get(a, StrategyAnnotation, "round-robin"),
      Some(HealthCheck(
        Get(a, HcModeAnnotation, "tcp"), HealthCheckPort(m, a, parsers, p), Get(a, HcUriAnnotation, ""),
        parsers.seconds(Get(a, HcIntervalAnnotation, "10s")).GetOr(0),
        parsers.seconds(Get(a, HcTimeoutAnnotation, "5s")).GetOr(0),
        parsers.atoi(Get(a, HcRetriesAnnotation, "1")).GetOr(0))),
      Some(Get(a, PoolAnnotation, "")))
  }

  function Contents(m: Manifest, a: Annotations, parsers: Parsers): seq<Content> {
    seq(|m.ports|, i requires 0 <= i < |m.ports| => ContentFor(m, a, parsers, m.ports[i]))
  }

  function Build(m: Manifest, a: Annotations, parsers: Parsers): Result<Spec, Error> {
    if Buildable(m, a, parsers) then
      Ok(Spec(IsExternal(a), Get(a, NameAnnotation, "k8s-" + m.uid), Get(a, DescriptionAnnotation, ""),
              Contents(m, a, parsers)))
    else Err(Invalid)
  }

  /** Reads the annotations in the order the controller does and stops at the first error. */
  method BuildLoadBalancerFromAnnotations(service: Service, parsers: Parsers) returns (r: Result<Spec, Error>)
    ensures r == Build(service.manifest, service.annotations, parsers)
  {
    var m, a := service.manifest, service.annotations;
    var hcInterval := parsers.seconds(Get(a, HcIntervalAnnotation, "10s"));
    if hcInterval.None? { return Err(Invalid); }
    var hcTimeout := parsers.seconds(Get(a, HcTimeoutAnnotation, "5s"));
    if hcTimeout.None? { return Err(Invalid); }
    var hcRetries := parsers.atoi(Get(a, HcRetriesAnnotation, "1"));
    if hcRetries.None? { return Err(Invalid); }
    var services := [];
    for i := 0 to |m.ports|
      invariant services == Contents(m, a, parsers)[..i]
      invariant i > 0 && Get(a, HcPortAnnotation, "") != "" ==> parsers.atoi(Get(a, HcPortAnnotation, "")).Some?
      invariant forall j | 0 <= j < i :: SupportedProtocol(m.ports[j])
    {
      var p := m.ports[i];
      var hcPort;
      var hcPortAnnotation := Get(a, HcPortAnnotation, "");
      if hcPortAnnotation != "" {
        var parsed := parsers.atoi(hcPortAnnotation);
        if parsed.None? { return Err(Invalid); }
        hcPort := Uint16(parsed.value);
      } else {
        hcPort := Uint16(p.nodePort);
        if m.trafficPolicy == "Local" && m.healthCheckNodePort > 0 {
          hcPort := Uint16(m.healthCheckNodePort);
        }
      }
      if p.protocol != "TCP" && p.protocol != "UDP" {
        assert !SupportedProtocol(m.ports[i]);
        return Err(Invalid);
      }
      var name := m.uid + "-" + FormatInt(p.port);
      if p.protocol != "TCP" {
        name := name + ("-" + Lower(p.protocol));
      }
      var content := Content(
        name, "", p.port, p.nodePort, Lower(p.protocol), Get(a, StrategyAnnotation, "round-robin"),
        Some(HealthCheck(Get(a, HcModeAnnotation, "tcp"), hcPort, Get(a, HcUriAnnotation, ""),
                         hcInterval.value, hcTimeout.value, hcRetries.value)),
        Some(Get(a, PoolAnnotation, "")));
      if |m.ports| == 1 {
        content := content.(name := Get(a, ServiceNameAnnotation, name),
                            description := Get(a, ServiceDescriptionAnnotation, ""));
      }
      assert name == PortName(m.uid, p);
      assert content == ContentFor(m, a, parsers, p);
      assert Contents(m, a, parsers)[..i + 1] == Contents(m, a, parsers)[..i] + [content];
      services := services + [content];
    }
    assert Contents(m, a, parsers)[..|m.ports|] == Contents(m, a, parsers);
    return Ok(Spec(IsExternal(a), Get(a, NameAnnotation, "k8s-" + m.uid), Get(a, DescriptionAnnotation, ""), services));
  }

  // ----- What a build promises -------------------------------------------------------------

  function PortKey(p: ServicePort): Key {
    Key(p.port, Lower(p.protocol))
  }

  /** The API server's own rule for the ports of one Service, protocols read without case. */
  ghost predicate UniquePorts(m: Manifest) {
    forall i, j | 0 <= i < j < |m.ports| :: PortKey(m.ports[i]) != PortKey(m.ports[j])
  }

  function PortKeys(m: Manifest): set<Key> {
    set i | 0 <= i < |m.ports| :: PortKey(m.ports[i])
  }

  /** One desired service per port, in order, under that port's key, and a build fails exactly
      on an unsupported protocol or on an annotation that does not parse. */
  lemma BuildFaithful(m: Manifest, a: Annotations, parsers: Parsers)
    ensures Build(m, a, parsers).Ok? ==>
              var ds := Build(m, a, parsers).value.services;
              && |ds| == |m.ports|
              && (forall i | 0 <= i < |ds| :: ds[i].ServiceKey() == PortKey(m.ports[i]))
              && KeysOf(ds) == PortKeys(m)
              && (UniqueKeys(ds) <==> UniquePorts(m))
    ensures Build(m, a, parsers).Err? <==>
              || parsers.seconds(Get(a, HcIntervalAnnotation, "10s")).None?
              || parsers.seconds(Get(a, HcTimeoutAnnotation, "5s")).None?
              || parsers.atoi(Get(a, HcRetriesAnnotation, "1")).None?
              || exists i :: 0 <= i < |m.ports|
                   && (!SupportedProtocol(m.ports[i])
                       || (Get(a, HcPortAnnotation, "") != "" && parsers.atoi(Get(a, HcPortAnnotation, "")).None?))
  {
    if Build(m, a, parsers).Ok? {
      var ds := Build(m, a, parsers).value.services;
      assert forall i | 0 <= i < |ds| :: ds[i] == ContentFor(m, a, parsers, m.ports[i]);
      forall k ensures k in KeysOf(ds) <==> k in PortKeys(m) {
        if k in KeysOf(ds) {
          var i :| 0 <= i < |ds| && ds[i].ServiceKey() == k;
          assert PortKey(m.ports[i]) == k;
        }
        if k in PortKeys(m) {
          var i :| 0 <= i < |m.ports| && PortKey(m.ports[i]) == k;
          assert ds[i].ServiceKey() == k;
        }
      }
    }
    if exists i :: 0 <= i < |m.ports| && !SupportedProtocol(m.ports[i]) {
      var i :| 0 <= i < |m.ports| && !SupportedProtocol(m.ports[i]);
    } else if m.ports != [] {
      assert SupportedProtocol(m.ports[0]);
    }
  }

  /** `v` is the annotation `k` if it is there, and the default if it is not. */
  ghost predicate Given(a: Annotations, k: string, default: string, v: string) {
    (k in a ==> v == a[k]) && (k !in a ==> v == default)
  }

  /** The low 16 bits of an integer. */
  ghost predicate Low16(x: int, v: int) {
    0 <= v < 65536 && exists k: int :: x == v + 65536 * k
  }

  /** Where the health check of a port goes: to the annotated port; else, under the local traffic
      policy, to the health-check node port if there is one; else to the node port. */
  ghost predicate CheckedAt(m: Manifest, a: Annotations, parsers: Parsers, p: ServicePort, v: int) {
    if HcPortAnnotation in a && a[HcPortAnnotation] != "" then
      parsers.atoi(a[HcPortAnnotation]).Some? && Low16(parsers.atoi(a[HcPortAnnotation]).value, v)
    else if m.trafficPolicy == "Local" && m.healthCheckNodePort > 0 then Low16(m.healthCheckNodePort, v)
    else Low16(p.nodePort, v)
  }

  ghost predicate ParsedFrom(a: Annotations, k: string, default: string, parse: string -> Option<int>, v: int) {
    if k in a then parse(a[k]) == Some(v) else parse(default) == Some(v)
  }

  /** The health check of a port, field by field. */
  ghost predicate Checked(m: Manifest, a: Annotations, parsers: Parsers, p: ServicePort, h: HealthCheck) {
    && Given(a, HcModeAnnotation, "tcp", h.mode) && Given(a, HcUriAnnotation, "", h.uri)
    && CheckedAt(m, a, parsers, p, h.port)
    && ParsedFrom(a, HcIntervalAnnotation, "10s", parsers.seconds, h.interval)
    && ParsedFrom(a, HcTimeoutAnnotation, "5s", parsers.seconds, h.timeout)
    && ParsedFrom(a, HcRetriesAnnotation, "1", parsers.atoi, h.retries)
  }

  /** The default name of a port's service. */
  ghost predicate DefaultNamed(uid: string, p: ServicePort, name: string) {
    p.port >= 0 ==> name == uid + "-" + Itoa(p.port) + (if p.protocol == "UDP" then "-udp" else "")
  }

  /** What the service of one port has to be, field by field. */
  ghost predicate AsAsked(m: Manifest, a: Annotations, parsers: Parsers, p: ServicePort, d: Content) {
    && d.port == p.port && d.targetPort == p.nodePort
    && (p.protocol == "TCP" ==> d.protocol == "tcp") && (p.protocol == "UDP" ==> d.protocol == "udp")
    && Given(a, StrategyAnnotation, "round-robin", d.strategy)
    && d.healthcheck.Some? && Checked(m, a, parsers, p, d.healthcheck.value)
    && d.pool.Some? && Given(a, PoolAnnotation, "", d.pool.value)
    && (if |m.ports| == 1 then
          Given(a, ServiceDescriptionAnnotation, "", d.description)
          && (if ServiceNameAnnotation in a then d.name == a[ServiceNameAnnotation] else DefaultNamed(m.uid, p, d.name))
        else d.description == "" && DefaultNamed(m.uid, p, d.name))
  }

  lemma Low16Uint(x: int)
    ensures Low16(x, Uint16(x))
  {
    assert x == Uint16(x) + 65536 * (x / 65536);
  }

  lemma CheckMeans(m: Manifest, a: Annotations, parsers: Parsers, p: ServicePort)
    requires Buildable(m, a, parsers) && m.ports != []
    ensures Checked(m, a, parsers, p, ContentFor(m, a, parsers, p).healthcheck.value)
  {
    Low16Uint(p.nodePort);
    Low16Uint(m.healthCheckNodePort);
    Low16Uint(parsers.atoi(Get(a, HcPortAnnotation, "")).GetOr(0));
  }

  lemma NameMeans(uid: string, p: ServicePort)
    requires SupportedProtocol(p)
    ensures DefaultNamed(uid, p, PortName(uid, p))
    ensures p.protocol == "TCP" ==> Lower(p.protocol) == "tcp"
    ensures p.protocol == "UDP" ==> Lower(p.protocol) == "udp"
  {
    assert Lower("TCP") == "tcp" && Lower("UDP") == "udp";
    assert "-" + "udp" == "-udp";
    if p.port >= 0 { assert FormatInt(p.port) == Itoa(p.port); }
  }

  /** What a successful build yields: each port's service is as asked, field by field. */
  lemma BuildMeans(m: Manifest, a: Annotations, parsers: Parsers, i: nat)
    requires Build(m, a, parsers).Ok? && i < |m.ports|
    ensures var ds := Build(m, a, parsers).value.services;
            |ds| == |m.ports| && AsAsked(m, a, parsers, m.ports[i], ds[i])
  {
    CheckMeans(m, a, parsers, m.ports[i]);
    NameMeans(m.uid, m.ports[i]);
    assert Build(m, a, parsers).value.services[i] == ContentFor(m, a, parsers, m.ports[i]);
  }

  /** And the NLB is named, described and external as annotated. */
  lemma BuildTopMeans(m: Manifest, a: Annotations, parsers: Parsers)
    requires Build(m, a, parsers).Ok?
    ensures var spec := Build(m, a, parsers).value;
            && Given(a, NameAnnotation, "k8s-" + m.uid, spec.name)
            && Given(a, DescriptionAnnotation, "", spec.description)
            && (spec.external <==> ExternalAnnotation in a && Lower(a[ExternalAnnotation]) == "true")
  {
    ExternalMeans(a);
  }

  lemma ExternalMeans(a: Annotations)
    ensures IsExternal(a) <==> ExternalAnnotation in a && Lower(a[ExternalAnnotation]) == "true"
  {
    assert Lower("false")[0] == 'f';
  }

  /** The annotations by name. */
  lemma AnnotationNames(prefix: string)
    requires prefix == "service.beta.kubernetes.io/exoscale-loadbalancer-"
    ensures IdAnnotation == prefix + "id"
    ensures NameAnnotation == prefix + "name"
    ensures DescriptionAnnotation == prefix + "description"
    ensures ExternalAnnotation == prefix + "external"
    ensures StrategyAnnotation == prefix + "service-strategy"
    ensures ServiceNameAnnotation == prefix + "service-name"
    ensures ServiceDescriptionAnnotation == prefix + "service-description"
    ensures PoolAnnotation == prefix + "service-instancepool-id"
    ensures ClusterNameAnnotation == prefix + "sks-cluster-name"
    ensures NodepoolNameAnnotation == prefix + "service-sks-nodepool-name"
    ensures HcModeAnnotation == prefix + "service-healthcheck-mode"
    ensures HcPortAnnotation == prefix + "service-healthcheck-port"
    ensures HcUriAnnotation == prefix + "service-healthcheck-uri"
    ensures HcIntervalAnnotation == prefix + "service-healthcheck-interval"
    ensures HcTimeoutAnnotation == prefix + "service-healthcheck-timeout"
    ensures HcRetriesAnnotation == prefix + "service-healthcheck-retries"
  {}

  /** Whether a Service builds does not depend on the two annotations the controller writes,
      and what it builds does not depend on the ID. */
  lemma BuildIgnoresOwnWrites(m: Manifest, a: Annotations, b: Annotations, parsers: Parsers)
    requires OwnKeysOnly(a, b)
    ensures Build(m, a, parsers).Ok? == Build(m, b, parsers).Ok?
    ensures IsExternal(a) == IsExternal(b)
    ensures Get(a, PoolAnnotation, "") == Get(b, PoolAnnotation, "") ==> Build(m, a, parsers) == Build(m, b, parsers)
  {
    BuildableAlike(m, a, b, parsers);
    ReadAlike(a, b);
    if Get(a, PoolAnnotation, "") == Get(b, PoolAnnotation, "") {
      forall i | 0 <= i < |m.ports|
        ensures Contents(m, a, parsers)[i] == Contents(m, b, parsers)[i]
      {
        ContentAlike(m, a, b, parsers, m.ports[i]);
      }
      assert Contents(m, a, parsers) == Contents(m, b, parsers);
    }
  }

  /** The two maps agree on every annotation that the controller does not own. */
  ghost predicate OwnKeysOnly(a: Annotations, b: Annotations) {
    forall k | !OwnKey(k) :: (k in a <==> k in b) && (k in a ==> a[k] == b[k])
  }

  lemma ReadAlike(a: Annotations, b: Annotations)
    requires OwnKeysOnly(a, b)
    ensures IsExternal(a) == IsExternal(b)
    ensures forall default :: Get(a, NameAnnotation, default) == Get(b, NameAnnotation, default)
    ensures forall default :: Get(a, DescriptionAnnotation, default) == Get(b, DescriptionAnnotation, default)
  {
    OwnAnnotations();
  }

  lemma BuildableAlike(m: Manifest, a: Annotations, b: Annotations, parsers: Parsers)
    requires OwnKeysOnly(a, b)
    ensures Buildable(m, a, parsers) == Buildable(m, b, parsers)
  {
    OwnAnnotations();
  }

  lemma ContentAlike(m: Manifest, a: Annotations, b: Annotations, parsers: Parsers, p: ServicePort)
    requires OwnKeysOnly(a, b) && Get(a, PoolAnnotation, "") == Get(b, PoolAnnotation, "")
    ensures ContentFor(m, a, parsers, p) == ContentFor(m, b, parsers, p)
  {
    OwnAnnotations();
  }

  /** The annotations the controller writes. */
  predicate OwnKey(k: string) {
    k == IdAnnotation || k == PoolAnnotation
  }

  /** The annotations that are read are not the ones that are written. */
  lemma OwnAnnotations()
    ensures !OwnKey(NameAnnotation) && !OwnKey(DescriptionAnnotation) && !OwnKey(ExternalAnnotation)
    ensures !OwnKey(StrategyAnnotation) && !OwnKey(ServiceNameAnnotation) && !OwnKey(ServiceDescriptionAnnotation)
    ensures !OwnKey(HcModeAnnotation) && !OwnKey(HcPortAnnotation) && !OwnKey(HcUriAnnotation)
    ensures !OwnKey(HcIntervalAnnotation) && !OwnKey(HcTimeoutAnnotation) && !OwnKey(HcRetriesAnnotation)
    ensures !OwnKey(ClusterNameAnnotation) && !OwnKey(NodepoolNameAnnotation)
    ensures IdAnnotation != PoolAnnotation
  {
    var n := |AnnotationPrefix|;
    assert IdAnnotation[n..] == "id" && PoolAnnotation[n..] == "service-instancepool-id";
    assert NameAnnotation[n..] == "name" && DescriptionAnnotation[n..] == "description";
    assert ExternalAnnotation[n..] == "external" && StrategyAnnotation[n..] == "service-strategy";
    assert ServiceNameAnnotation[n..] == "service-name" && ServiceDescriptionAnnotation[n..] == "service-description";
    assert HcModeAnnotation[n..] == "service-healthcheck-mode" && HcPortAnnotation[n..] == "service-healthcheck-port";
    assert HcUriAnnotation[n..] == "service-healthcheck-uri";
    assert HcIntervalAnnotation[n..] == "service-healthcheck-interval";
    assert HcTimeoutAnnotation[n..] == "service-healthcheck-timeout";
    assert HcRetriesAnnotation[n..] == "service-healthcheck-retries";
    assert ClusterNameAnnotation[n..] == "sks-cluster-name";
    assert NodepoolNameAnnotation[n..] == "service-sks-nodepool-name";
  }

  /** Without a name annotation, a port's service has the default name, so the names of two
      ports differ, within one Service and across Services with different UIDs. */
  lemma BuiltNamesDistinct(u: string, p: ServicePort, u': string, p': ServicePort)
    requires p.port >= 0 && p'.port >= 0 && SupportedProtocol(p) && SupportedProtocol(p')
    requires (u, PortKey(p)) != (u', PortKey(p'))
    ensures PortName(u, p) != PortName(u', p')
  {
    var proto, proto' := if p.protocol == "TCP" then TCP else UDP, if p'.protocol == "TCP" then TCP else UDP;
    assert Lower("TCP") == "tcp" && Lower("UDP") == "udp";
    assert PortName(u, p) == DefaultName(u, p.port, proto);
    assert PortName(u', p') == DefaultName(u', p'.port, proto');
    DefaultNamesDistinct(u, p.port, proto, u', p'.port, proto');
  }
}
