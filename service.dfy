/** The Service creator (controller/src/resource_creator/service.rs): one
    service port per application port, and a Service only when there is one. */
module ServiceCreator {
  import opened Wrappers
  import opened K8s
  import opened Common
  import Api
  import Models

  /** The port the Service exposes for an application port. */
  function ServicePortNumber(p: Api.Port): (n: int)
    ensures p.kind == Api.HTTP ==> n == 80
    ensures p.kind == Api.Metrics ==> n == 9090
    ensures p.kind == Api.TCP ==> n == p.port
  {
    match p.kind
    case HTTP => 80
    case Metrics => 9090
    case TCP => p.port
  }

  function ServicePortFor(p: Api.Port): ServicePort {
    ServicePort(Some(Api.PortName(p)), ServicePortNumber(p), Some(Str(Api.PortName(p))))
  }

  /** `generate_ports`: `None` exactly when the application has no ports;
      otherwise one service port per application port, in order, named and
      targeting the port's name. */
  function GeneratePorts(ports: seq<Api.Port>): (r: Option<seq<ServicePort>>)
    ensures r.None? <==> ports == []
    ensures r.Some? ==> |r.value| == |ports|
    ensures r.Some? ==> forall i :: 0 <= i < |ports| ==>
      r.value[i].name == Some(Api.PortName(ports[i]))
      && r.value[i].targetPort == Some(Str(Api.PortName(ports[i])))
      && r.value[i].port == ServicePortNumber(ports[i])
  {
    var servicePorts := seq(|ports|, i requires 0 <= i < |ports| => ServicePortFor(ports[i]));
    if servicePorts == [] then None else Some(servicePorts)
  }

  /** Two service ports of one Service never share a name unless their
      application ports are of the same kind. */
  lemma PortNamesFollowKinds(ports: seq<Api.Port>, i: int, j: int)
    requires 0 <= i < |ports| && 0 <= j < |ports|
    ensures GeneratePorts(ports).value[i].name == GeneratePorts(ports).value[j].name
            <==> ports[i].kind == ports[j].kind
  {
    Api.PortNames(ports[i], ports[j]);
  }

  /** The Service that `process` creates when there are ports. */
  function ServiceFor(ports: seq<Api.Port>, meta: ObjectMeta, labels: Labels): (s: Service)
    ensures s.metadata == meta
    ensures s.spec.Some? && s.spec.value.selector == Some(labels)
    ensures s.spec.value.ports == GeneratePorts(ports)
  {
    Service(meta, Some(ServiceSpec(Some(labels), GeneratePorts(ports))))
  }

  /** `process`: without ports, one `DeleteIfExists` of a Service that has
      only the metadata; with ports, one `CreateOrUpdate` of the Service
      selecting `labels`. Only a serialization failure fails. */
  function Process(ser: Serializer, app: Api.Application, meta: ObjectMeta, labels: Labels)
    : (r: Result<seq<Models.Operation>, Error>)
    ensures app.spec.ports == [] ==> (r.Err? <==> ser(ServiceResource(Service(meta, None))).None?)
    ensures app.spec.ports != [] ==> (r.Err? <==> ser(ServiceResource(ServiceFor(app.spec.ports, meta, labels))).None?)
    ensures r.Err? ==> r.error == ConfigError
    ensures r.Ok? ==> |r.value| == 1 && r.value[0].target.metadata == meta
    ensures r.Ok? ==> (r.value[0].DeleteIfExists? <==> app.spec.ports == [])
    ensures r.Ok? ==> r.value[0].target.types == Some(TypeMeta("v1", "Service"))
    ensures r.Ok? && app.spec.ports == [] ==>
      var converted := ToDynamicObject(ser, ServiceResource(Service(meta, None)));
      converted.Ok? && r.value[0].target == converted.value
    ensures r.Ok? && app.spec.ports != [] ==>
      var converted := ToDynamicObject(ser, ServiceResource(ServiceFor(app.spec.ports, meta, labels)));
      converted.Ok? && r.value[0].target == converted.value
  {
    var ports := GeneratePorts(app.spec.ports);
    if ports.None? || ports.value == [] then
      var obj :- ToDynamicObject(ser, ServiceResource(Service(meta, None)));
      Ok([Models.DeleteIfExists(obj)])
    else
      var obj :- ToDynamicObject(ser, ServiceResource(ServiceFor(app.spec.ports, meta, labels)));
      Ok([Models.CreateOrUpdate(obj)])
  }
}
