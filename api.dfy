/** The `Application` and `IngressZone` custom resources (api/src/lib.rs and
    api/src/ingress_zone.rs): their value types, the serde defaults applied to
    omitted fields, the `Display` formats and the `EnvValue` conversion. */
module Api {
  import opened Wrappers
  import opened Strings
  import K8s

  type U16 = x: int | 0 <= x < 0x1_0000

  // ---------------------------------------------------------------- ports

  datatype PortKind = HTTP | Metrics | TCP

  /** `#[default]` on `PortKind`. */
  function DefaultPortKind(): (k: PortKind)
    ensures KindDisplay(k) == "HTTP"
  {
    HTTP
  }

  /** `Display for PortKind`, which writes the `Debug` form: the variant name,
      upper-case as declared. */
  function KindDisplay(k: PortKind): (s: string)
    ensures k.HTTP? ==> s == "HTTP"
    ensures k.Metrics? ==> s == "Metrics"
    ensures k.TCP? ==> s == "TCP"
  {
    match k
    case HTTP => "HTTP"
    case Metrics => "Metrics"
    case TCP => "TCP"
  }

  datatype PathType = Prefix | Exact

  /** `#[default]` on `PathType`. */
  function DefaultPathType(): (t: PathType)
    ensures PathTypeDisplay(t) == "Prefix"
  {
    Prefix
  }

  /** `Display for PathType`, the variant name. */
  function PathTypeDisplay(t: PathType): (s: string)
    ensures t.Prefix? ==> s == "Prefix"
    ensures t.Exact? ==> s == "Exact"
  {
    match t
    case Prefix => "Prefix"
    case Exact => "Exact"
  }

  /** Different kinds and path types never print alike, so the printed form
      identifies the value. */
  lemma DisplaysAreInjective(k1: PortKind, k2: PortKind, t1: PathType, t2: PathType)
    ensures KindDisplay(k1) == KindDisplay(k2) <==> k1 == k2
    ensures PathTypeDisplay(t1) == PathTypeDisplay(t2) <==> t1 == t2
  {
    if k1 != k2 {
      assert KindDisplay(k1)[0] != KindDisplay(k2)[0];
    }
    if t1 != t2 {
      assert PathTypeDisplay(t1)[0] != PathTypeDisplay(t2)[0];
    }
  }

  /** One `ingress` entry of a port: the zone to expose the port in. */
  datatype Ingress = Ingress(zone: string, pathType: Option<PathType>, paths: seq<string>)

  datatype Port = Port(kind: PortKind, port: U16, ingress: seq<Ingress>)

  /** `Port::name`: the kind's display form in lower case, so one of three
      fixed names. */
  function PortName(p: Port): (n: string)
    ensures p.kind.HTTP? ==> n == "http"
    ensures p.kind.Metrics? ==> n == "metrics"
    ensures p.kind.TCP? ==> n == "tcp"
  {
    ToLower(KindDisplay(p.kind))
  }

  /** No two kinds share a name. */
  lemma PortNames(p: Port, q: Port)
    ensures PortName(p) == PortName(q) <==> p.kind == q.kind
  {
    if p.kind != q.kind {
      assert PortName(p)[0] != PortName(q)[0] || |PortName(p)| != |PortName(q)|;
    }
  }

  // ---------------------------------------------------------- environment

  datatype EnvValue = EnvValue(name: string, value: string)

  /** `EnvValue::to_kube`. */
  function ToKube(e: EnvValue): (v: K8s.EnvVar)
    ensures v.name == e.name && v.value == Some(e.value) && v.valueFrom.None?
  {
    K8s.EnvVar(e.name, Some(e.value), None)
  }

  /** Nothing is lost in the conversion: the Kubernetes variable gives back
      the application's. */
  lemma ToKubeIsInjective(a: EnvValue, b: EnvValue)
    ensures ToKube(a) == ToKube(b) ==> a == b
  {
  }

  datatype EnvFrom = EnvFrom(configMap: Option<string>, secret: Option<string>)

  /** The documented rule for an `envFrom` item: a config map or a secret,
      and never both. No code checks it. */
  predicate EnvFromNamesOneSource(e: EnvFrom): (ok: bool)
    ensures ok ==> e.configMap.Some? || e.secret.Some?
    ensures e.configMap.Some? && e.secret.Some? ==> !ok
  {
    e.configMap.Some? != e.secret.Some?
  }

  /** The default item (`EnvFrom::default()`) names no source, so the rule
      rejects it, and one that sets both fields is rejected too. */
  lemma EnvFromRule(name: string, other: string)
    ensures !EnvFromNamesOneSource(EnvFrom(None, None))
    ensures !EnvFromNamesOneSource(EnvFrom(Some(name), Some(other)))
    ensures EnvFromNamesOneSource(EnvFrom(Some(name), None))
    ensures EnvFromNamesOneSource(EnvFrom(None, Some(name)))
  {
  }

  // --------------------------------------------------------------- probes

  datatype ProbeConfig = ProbeConfig(initialDelaySeconds: U16, portName: string)
  datatype HttpAction = HttpAction(path: Option<string>, config: ProbeConfig)
  datatype GrpcAction = GrpcAction(service: Option<string>, config: ProbeConfig)
  datatype TcpAction = TcpAction(config: ProbeConfig)
  datatype Probe = Probe(http: Option<HttpAction>, grpc: Option<GrpcAction>, tcp: Option<TcpAction>)
  datatype Probes = Probes(readiness: Option<Probe>, liveness: Option<Probe>, startup: Option<Probe>)

  /** `default_initial_delay_seconds`. */
  function DefaultInitialDelaySeconds(): (s: U16)
    ensures s == 15
  {
    15
  }

  /** `#[derive(Default)]` on `ProbeConfig`: every field at its type's default. */
  function DefaultProbeConfig(): ProbeConfig {
    ProbeConfig(0, "")
  }

  /** `default_http_path`. */
  function DefaultHttpPath(): (p: Option<string>)
    ensures p == Some("/")
  {
    Some("/")
  }

  /** `default_grpc_service`. */
  function DefaultGrpcService(): (s: Option<string>)
    ensures s.None?
  {
    None
  }

  /** `Default for HttpAction`. */
  function DefaultHttpAction(): (a: HttpAction)
    ensures a.path == Some("/")
    ensures a.config.initialDelaySeconds == 0 && a.config.portName == ""
  {
    HttpAction(DefaultHttpPath(), DefaultProbeConfig())
  }

  /** `Default for GrpcAction`. */
  function DefaultGrpcAction(): (a: GrpcAction)
    ensures a.service.None?
    ensures a.config.initialDelaySeconds == 0 && a.config.portName == ""
  {
    GrpcAction(DefaultGrpcService(), DefaultProbeConfig())
  }

  // ------------------------------------------------------------ resources

  datatype ApplicationSpec = ApplicationSpec(
    env: seq<EnvValue>,
    envFrom: seq<EnvFrom>,
    image: string,
    ports: seq<Port>,
    probes: Option<Probes>)

  /** An `Application` with its name (`name_any`) and optional namespace. */
  datatype Application = Application(name: string, namespace: Option<string>, spec: ApplicationSpec)

  datatype IngressZoneTls = IngressZoneTls(clusterIssuer: Option<string>)
  datatype IngressZoneSpec = IngressZoneSpec(host: string, ingressClass: Option<string>, tls: Option<IngressZoneTls>)
  datatype IngressZone = IngressZone(name: Option<string>, spec: IngressZoneSpec)

  /** `zone.name_any()`: the zone's name, empty when it has none. */
  function ZoneName(z: IngressZone): string {
    z.name.GetOr("")
  }

  // ------------------------------------------- serde defaults and skipping

  /** A field of a serialized object: left out, or given with a value. */
  datatype Field<T> = Absent | Given(value: T)

  /** The serialized form of an `Ingress` entry. */
  datatype RawIngress = RawIngress(zone: string, pathType: Field<Option<PathType>>, paths: Field<seq<string>>)

  /** Deserialization: an omitted `pathType` becomes `default_path_type()`
      (`Some(Prefix)`) and omitted `paths` become `default_paths()` (`["/"]`). */
  function DecodeIngress(raw: RawIngress): (i: Ingress)
    ensures raw.pathType.Absent? ==> i.pathType == Some(Prefix)
    ensures raw.paths.Absent? ==> i.paths == ["/"]
    ensures raw.pathType.Given? ==> i.pathType == raw.pathType.value
    ensures raw.paths.Given? ==> i.paths == raw.paths.value
    ensures i.zone == raw.zone
  {
    Ingress(
      raw.zone,
      match raw.pathType case Absent => Some(Prefix) case Given(t) => t,
      match raw.paths case Absent => ["/"] case Given(p) => p)
  }

  /** Serialization, which skips a `None` path type and an empty path list
      and writes every other field as it is. */
  function EncodeIngress(i: Ingress): (raw: RawIngress)
    ensures raw.zone == i.zone
    ensures raw.pathType.Absent? <==> i.pathType.None?
    ensures raw.paths.Absent? <==> i.paths == []
    ensures raw.pathType.Given? ==> raw.pathType.value == i.pathType
    ensures raw.paths.Given? ==> raw.paths.value == i.paths
  {
    RawIngress(
      i.zone,
      if i.pathType.None? then Absent else Given(i.pathType),
      if i.paths == [] then Absent else Given(i.paths))
  }

  /** An entry survives a serialize/deserialize round trip exactly when it
      has a path type and at least one path; otherwise the defaults fill in. */
  lemma IngressRoundTrip(i: Ingress)
    ensures DecodeIngress(EncodeIngress(i)) == i <==> i.pathType.Some? && i.paths != []
  {
    var d := DecodeIngress(EncodeIngress(i));
    if i.pathType.None? {
      assert d.pathType != i.pathType;
    }
    if i.paths == [] {
      assert d.paths != i.paths;
    }
  }

  /** One round trip settles an entry: a second one changes nothing. */
  lemma IngressRoundTripSettles(i: Ingress)
    ensures var once := DecodeIngress(EncodeIngress(i));
            DecodeIngress(EncodeIngress(once)) == once
  {
    IngressRoundTrip(DecodeIngress(EncodeIngress(i)));
  }

  /** The serialized form of a probe action: its optional field and the
      flattened `ProbeConfig`, whose delay may be omitted. */
  datatype RawAction = RawAction(field: Field<Option<string>>, initialDelaySeconds: Field<U16>, portName: string)

  function DecodeProbeConfig(raw: RawAction): (c: ProbeConfig)
    ensures raw.initialDelaySeconds.Absent? ==> c.initialDelaySeconds == 15
    ensures raw.initialDelaySeconds.Given? ==> c.initialDelaySeconds == raw.initialDelaySeconds.value
    ensures c.portName == raw.portName
  {
    ProbeConfig(
      match raw.initialDelaySeconds case Absent => DefaultInitialDelaySeconds() case Given(s) => s,
      raw.portName)
  }

  /** `initial_delay_seconds` is never skipped when serialized, so the
      configuration reads back unchanged. */
  function EncodeProbeConfig(field: Field<Option<string>>, c: ProbeConfig): (raw: RawAction)
    ensures raw.initialDelaySeconds.Given?
    ensures raw.field == field
    ensures DecodeProbeConfig(raw) == c
  {
    RawAction(field, Given(c.initialDelaySeconds), c.portName)
  }

  function DecodeHttpAction(raw: RawAction): (a: HttpAction)
    ensures raw.field.Absent? ==> a.path == Some("/")
    ensures raw.field.Given? ==> a.path == raw.field.value
  {
    HttpAction(
      match raw.field case Absent => DefaultHttpPath() case Given(p) => p,
      DecodeProbeConfig(raw))
  }

  /** Serialization skips a `None` path, which the default turns into "/"
      when read back; every other action reads back unchanged. */
  function EncodeHttpAction(a: HttpAction): (raw: RawAction)
    ensures raw.field.Absent? <==> a.path.None?
    ensures DecodeHttpAction(raw) == a <==> a.path.Some?
    ensures a.path.None? ==> DecodeHttpAction(raw) == a.(path := Some("/"))
  {
    EncodeProbeConfig(if a.path.None? then Absent else Given(a.path), a.config)
  }

  function DecodeGrpcAction(raw: RawAction): (a: GrpcAction)
    ensures raw.field.Absent? ==> a.service.None?
    ensures raw.field.Given? ==> a.service == raw.field.value
  {
    GrpcAction(
      match raw.field case Absent => DefaultGrpcService() case Given(s) => s,
      DecodeProbeConfig(raw))
  }

  /** Serialization skips a `None` service, and the default is `None` again,
      so every action reads back unchanged. */
  function EncodeGrpcAction(a: GrpcAction): (raw: RawAction)
    ensures raw.field.Absent? <==> a.service.None?
    ensures DecodeGrpcAction(raw) == a
  {
    EncodeProbeConfig(if a.service.None? then Absent else Given(a.service), a.config)
  }

}
