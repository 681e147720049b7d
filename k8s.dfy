/** The Kubernetes object types the controller builds, reduced to the fields
    it sets. Maps stand for Rust's `BTreeMap`, `Option` for optional fields. */
module K8s {
  import opened Wrappers

  type Labels = map<string, string>

  /** A JSON value, as `serde_json::Value` holds it. */
  datatype Json =
    | JNull
    | JBool(b: bool)
    | JNumber(n: int)
    | JString(s: string)
    | JArray(items: seq<Json>)
    | JObject(fields: map<string, Json>)

  datatype ObjectMeta = ObjectMeta(
    name: Option<string>,
    namespace: Option<string>,
    labels: Option<Labels>,
    annotations: Option<Labels>,
    resourceVersion: Option<string>)

  /** `ObjectMeta::default()`. */
  const EmptyMeta := ObjectMeta(None, None, None, None, None)

  datatype TypeMeta = TypeMeta(apiVersion: string, kind: string)

  /** `matchLabels` of a label selector. */
  datatype LabelSelector = LabelSelector(matchLabels: Option<Labels>)

  /** A selector selects an object when every label it names is on the
      object with the same value. */
  predicate Selects(selector: LabelSelector, labels: Option<Labels>) {
    var wanted := selector.matchLabels.GetOr(map[]);
    var present := labels.GetOr(map[]);
    forall k :: k in wanted ==> k in present && present[k] == wanted[k]
  }

  // core/v1
  datatype EnvVarSource = EnvVarSource(fieldPath: string)
  datatype EnvVar = EnvVar(name: string, value: Option<string>, valueFrom: Option<EnvVarSource>)
  datatype Container = Container(name: string, image: Option<string>)
  datatype PodSpec = PodSpec(containers: seq<Container>)
  datatype PodTemplateSpec = PodTemplateSpec(metadata: Option<ObjectMeta>, spec: Option<PodSpec>)

  // apps/v1
  datatype DeploymentSpec = DeploymentSpec(replicas: Option<int>, selector: LabelSelector, template: PodTemplateSpec)
  datatype Deployment = Deployment(metadata: ObjectMeta, spec: Option<DeploymentSpec>)

  // core/v1
  datatype IntOrString = Int(i: int) | Str(s: string)
  datatype ServicePort = ServicePort(name: Option<string>, port: int, targetPort: Option<IntOrString>)
  datatype ServiceSpec = ServiceSpec(selector: Option<Labels>, ports: Option<seq<ServicePort>>)
  datatype Service = Service(metadata: ObjectMeta, spec: Option<ServiceSpec>)
  datatype ServiceAccount = ServiceAccount(metadata: ObjectMeta, automountServiceAccountToken: Option<bool>)

  // networking/v1
  datatype ServiceBackendPort = ServiceBackendPort(name: Option<string>, number: Option<int>)
  datatype IngressServiceBackend = IngressServiceBackend(name: string, port: Option<ServiceBackendPort>)
  datatype IngressBackend = IngressBackend(service: Option<IngressServiceBackend>)
  datatype HttpIngressPath = HttpIngressPath(backend: IngressBackend, path: Option<string>, pathType: string)
  datatype HttpIngressRuleValue = HttpIngressRuleValue(paths: seq<HttpIngressPath>)
  datatype IngressRule = IngressRule(host: Option<string>, http: Option<HttpIngressRuleValue>)
  datatype IngressTls = IngressTls(hosts: Option<seq<string>>, secretName: Option<string>)
  datatype IngressSpec = IngressSpec(
    ingressClassName: Option<string>,
    rules: Option<seq<IngressRule>>,
    tls: Option<seq<IngressTls>>)
  datatype Ingress = Ingress(metadata: ObjectMeta, spec: Option<IngressSpec>)

  /** The typed resources handed to `to_dynamic_object`. */
  datatype Resource =
    | DeploymentResource(deployment: Deployment)
    | ServiceResource(service: Service)
    | ServiceAccountResource(serviceAccount: ServiceAccount)
    | IngressResource(ingress: Ingress)

  /** `resource.meta()`. */
  function MetaOf(r: Resource): ObjectMeta {
    match r
    case DeploymentResource(d) => d.metadata
    case ServiceResource(s) => s.metadata
    case ServiceAccountResource(sa) => sa.metadata
    case IngressResource(i) => i.metadata
  }

  /** The API version and kind that `ApiResource::erase` gives each resource type. */
  function TypeMetaOf(r: Resource): TypeMeta {
    match r
    case DeploymentResource(_) => TypeMeta("apps/v1", "Deployment")
    case ServiceResource(_) => TypeMeta("v1", "Service")
    case ServiceAccountResource(_) => TypeMeta("v1", "ServiceAccount")
    case IngressResource(_) => TypeMeta("networking.k8s.io/v1", "Ingress")
  }

  /** `serde_json::to_value`, which may fail: `None` is a serialization error. */
  type Serializer = Resource -> Option<Json>

  /** kube's `DynamicObject`: optional type metadata, metadata, and the rest as JSON. */
  datatype DynamicObject = DynamicObject(types: Option<TypeMeta>, metadata: ObjectMeta, data: Json)
}
