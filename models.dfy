/** Operations and how they are applied to the cluster (controller/src/models.rs).
    The Kubernetes API server is an in-memory store (class `ApiServer`): a map
    from object keys to objects, the discovery table of the kinds it serves,
    and a table of injected faults standing for every error the real server
    can return besides the "not found" and "already exists" that the map
    itself produces. */
module Models {
  import opened Wrappers
  import opened K8s

  datatype Operation = CreateOrUpdate(target: DynamicObject) | DeleteIfExists(target: DynamicObject)

  /** `Display for Operation`: the variant name only. */
  function Display(op: Operation): (s: string)
    ensures op.CreateOrUpdate? ==> s == "CreateOrUpdate"
    ensures op.DeleteIfExists? ==> s == "DeleteIfExists"
  {
    match op
    case CreateOrUpdate(_) => "CreateOrUpdate"
    case DeleteIfExists(_) => "DeleteIfExists"
  }

  /** The printed form tells the variant and nothing about the object. */
  lemma DisplayShowsVariantOnly(op1: Operation, op2: Operation)
    ensures Display(op1) == Display(op2) <==> op1.CreateOrUpdate? == op2.CreateOrUpdate?
  {
    if op1.CreateOrUpdate? != op2.CreateOrUpdate? {
      assert Display(op1)[0] != Display(op2)[0];
    }
  }

  datatype Gvk = Gvk(apiVersion: string, kind: string)

  datatype KubeError = ApiErr(code: int) | OtherErr

  /** The errors `apply` can return, one per `bail!` or `?` in the source. */
  datatype ApplyError =
    | DiscoveryFailed
    | NoTypeMeta
    | GvkNotResolved
    | GetFailed(code: int)
    | ReplaceFailed(cause: KubeError)
    | CreateFailed(cause: KubeError)
    | DeleteFailed(code: int)

  /** `Operation::gvk`: the object's type metadata, or an error without it. */
  function GvkOf(obj: DynamicObject): (r: Result<Gvk, ApplyError>)
    ensures r.Ok? <==> obj.types.Some?
    ensures r.Err? ==> r.error == NoTypeMeta
    ensures r.Ok? ==> r.value.apiVersion == obj.types.value.apiVersion && r.value.kind == obj.types.value.kind
  {
    match obj.types
    case None => Err(NoTypeMeta)
    case Some(tm) => Ok(Gvk(tm.apiVersion, tm.kind))
  }

  datatype Scope = ClusterScope | NamespacedScope

  /** The three ways of addressing a kind that `dynamic_api` chooses from. */
  datatype DynamicApiKind = All | NamespacedIn(namespace: string) | DefaultNamespaced

  /** `dynamic_api`: cluster-wide for cluster-scoped kinds or when `all` is
      set; otherwise the given namespace, or failing that the client's default. */
  function DynamicApi(scope: Scope, ns: Option<string>, all: bool): (a: DynamicApiKind)
    ensures a.All? <==> scope.ClusterScope? || all
    ensures a.NamespacedIn? <==> scope.NamespacedScope? && !all && ns.Some?
    ensures a.NamespacedIn? ==> a.namespace == ns.value
    ensures a.DefaultNamespaced? <==> scope.NamespacedScope? && !all && ns.None?
  {
    if scope.ClusterScope? || all then All
    else if ns.Some? then NamespacedIn(ns.value)
    else DefaultNamespaced
  }

  /** The namespace that requests through an API handle go to. */
  function RequestNamespace(a: DynamicApiKind, defaultNamespace: string): Option<string> {
    match a
    case All => None
    case NamespacedIn(ns) => Some(ns)
    case DefaultNamespaced => Some(defaultNamespace)
  }

  // ---------------------------------------------------- the in-memory store

  datatype ObjectKey = ObjectKey(gvk: Gvk, namespace: Option<string>, name: string)

  datatype Request =
    | GetRequest(key: ObjectKey)
    | CreateRequest(key: ObjectKey)
    | ReplaceRequest(key: ObjectKey)
    | DeleteRequest(key: ObjectKey)

  type Store = map<ObjectKey, DynamicObject>

  /** Everything the API server's answers depend on. `discovery` is `None`
      when running discovery fails. */
  datatype ClusterView = ClusterView(
    discovery: Option<map<Gvk, Scope>>,
    defaultNamespace: string,
    faults: map<Request, KubeError>,
    objects: Store)

  function GetResult(v: ClusterView, key: ObjectKey): Result<DynamicObject, KubeError> {
    if GetRequest(key) in v.faults then Err(v.faults[GetRequest(key)])
    else if key in v.objects then Ok(v.objects[key])
    else Err(ApiErr(404))
  }

  function CreateStep(v: ClusterView, key: ObjectKey, obj: DynamicObject): (Result<(), KubeError>, Store) {
    if CreateRequest(key) in v.faults then (Err(v.faults[CreateRequest(key)]), v.objects)
    else if key in v.objects then (Err(ApiErr(409)), v.objects)
    else (Ok(()), v.objects[key := obj])
  }

  function ReplaceStep(v: ClusterView, key: ObjectKey, obj: DynamicObject): (Result<(), KubeError>, Store) {
    if ReplaceRequest(key) in v.faults then (Err(v.faults[ReplaceRequest(key)]), v.objects)
    else if key !in v.objects then (Err(ApiErr(404)), v.objects)
    else (Ok(()), v.objects[key := obj])
  }

  function DeleteStep(v: ClusterView, key: ObjectKey): (Result<(), KubeError>, Store) {
    if DeleteRequest(key) in v.faults then (Err(v.faults[DeleteRequest(key)]), v.objects)
    else if key !in v.objects then (Err(ApiErr(404)), v.objects)
    else (Ok(()), v.objects - {key})
  }

  predicate NotFound(code: int) {
    code == 404 || code == 410
  }

  // ------------------------------------------------- what `apply` does

  /** Discovery, `gvk`, `resolve_gvk` and `dynamic_api`: the key the object is
      addressed by, or the error raised before any request is sent. */
  function Target(v: ClusterView, obj: DynamicObject): (r: Result<ObjectKey, ApplyError>)
    requires obj.metadata.name.Some?
    ensures r.Ok? <==> v.discovery.Some? && obj.types.Some? && GvkOf(obj).value in v.discovery.value
    ensures r.Ok? ==> r.value.name == obj.metadata.name.value && r.value.gvk == GvkOf(obj).value
  {
    if v.discovery.None? then Err(DiscoveryFailed)
    else
      match GvkOf(obj)
      case Err(e) => Err(e)
      case Ok(gvk) =>
        if gvk !in v.discovery.value then Err(GvkNotResolved)
        else
          var api := DynamicApi(v.discovery.value[gvk], obj.metadata.namespace, false);
          Ok(ObjectKey(gvk, RequestNamespace(api, v.defaultNamespace), obj.metadata.name.value))
  }

  /** `obj` with the resource version of the object already stored. */
  function WithResourceVersionOf(obj: DynamicObject, existing: DynamicObject): DynamicObject {
    obj.(metadata := obj.metadata.(resourceVersion := existing.metadata.resourceVersion))
  }

  /** `apply_create_or_update`: replace an existing object (keeping only its
      resource version), create a missing one (404 or 410), fail on any other
      API error, and do nothing but succeed on an error that is not an API error. */
  function CreateOrUpdateSpec(v: ClusterView, obj: DynamicObject): (r: (Result<(), ApplyError>, Store))
    requires obj.metadata.name.Some?
    ensures r.0.Err? ==> r.1 == v.objects
    ensures r.1.Keys >= v.objects.Keys
    ensures forall k :: k in v.objects && (Target(v, obj).Err? || k != Target(v, obj).value) ==> r.1[k] == v.objects[k]
    ensures r.1 != v.objects ==>
      && Target(v, obj).Ok?
      && r.1.Keys == v.objects.Keys + {Target(v, obj).value}
      && r.1[Target(v, obj).value].data == obj.data
      && r.1[Target(v, obj).value].types == obj.types
  {
    match Target(v, obj)
    case Err(e) => (Err(e), v.objects)
    case Ok(key) =>
      match GetResult(v, key)
      case Ok(existing) =>
        var (res, after) := ReplaceStep(v, key, WithResourceVersionOf(obj, existing));
        (if res.Ok? then Ok(()) else Err(ReplaceFailed(res.error)), after)
      case Err(ApiErr(code)) =>
        if NotFound(code) then
          var (res, after) := CreateStep(v, key, obj);
          (if res.Ok? then Ok(()) else Err(CreateFailed(res.error)), after)
        else (Err(GetFailed(code)), v.objects)
      case Err(OtherErr) => (Ok(()), v.objects)
  }

  /** `apply_delete_if_exists`: a delete that succeeds or finds nothing (404,
      410) is fine, any other API error fails, and other errors are swallowed. */
  function DeleteIfExistsSpec(v: ClusterView, obj: DynamicObject): (r: (Result<(), ApplyError>, Store))
    requires obj.metadata.name.Some?
    ensures r.0.Err? ==> r.1 == v.objects
    ensures r.1 != v.objects ==> r.0.Ok? && Target(v, obj).Ok? && r.1 == v.objects - {Target(v, obj).value}
  {
    match Target(v, obj)
    case Err(e) => (Err(e), v.objects)
    case Ok(key) =>
      var (res, after) := DeleteStep(v, key);
      match res
      case Ok(_) => (Ok(()), after)
      case Err(ApiErr(code)) => (if NotFound(code) then Ok(()) else Err(DeleteFailed(code)), after)
      case Err(OtherErr) => (Ok(()), after)
  }

  /** `Operation::apply`: on success the operation's own object is returned. */
  function ApplySpec(v: ClusterView, op: Operation): (r: (Result<DynamicObject, ApplyError>, Store))
    requires op.target.metadata.name.Some?
    ensures r.0.Ok? ==> r.0.value == op.target
    ensures r.0.Err? ==> r.1 == v.objects
    ensures op.DeleteIfExists? ==> r.1.Keys <= v.objects.Keys
    ensures op.CreateOrUpdate? ==> r.1.Keys >= v.objects.Keys
  {
    var (res, after) :=
      match op
      case CreateOrUpdate(obj) => CreateOrUpdateSpec(v, obj)
      case DeleteIfExists(obj) => DeleteIfExistsSpec(v, obj);
    (if res.Ok? then Ok(op.target) else Err(res.error), after)
  }

  // ----------------------------------------------------- properties of apply

  /** Success returns the operation's own object, which has type metadata;
      a failed `apply` leaves the store as it was. */
  lemma ApplyOutcome(v: ClusterView, op: Operation)
    requires op.target.metadata.name.Some?
    ensures ApplySpec(v, op).0.Ok? ==> ApplySpec(v, op).0.value == op.target && GvkOf(op.target).Ok?
    ensures ApplySpec(v, op).0.Err? ==> ApplySpec(v, op).1 == v.objects
  {
    var t := Target(v, op.target);
    if t.Ok? {
      var key := t.value;
      match op {
        case CreateOrUpdate(obj) =>
          match GetResult(v, key) {
            case Ok(existing) =>
            case Err(e) =>
          }
        case DeleteIfExists(obj) =>
      }
    }
  }

  /** When discovery fails, the object has no type metadata or its kind is not
      served, the outcome is an error that neither the stored objects nor
      the fault table influence: no request reached the server. */
  lemma NoRequestWithoutTarget(v: ClusterView, w: ClusterView, op: Operation)
    requires op.target.metadata.name.Some?
    requires v.discovery == w.discovery && v.defaultNamespace == w.defaultNamespace
    requires Target(v, op.target).Err?
    ensures ApplySpec(v, op).0.Err? && ApplySpec(v, op).0 == ApplySpec(w, op).0
    ensures ApplySpec(v, op).1 == v.objects && ApplySpec(w, op).1 == w.objects
  {
    assert Target(w, op.target) == Target(v, op.target);
  }

  /** An existing object is replaced by the new one carrying the stored
      resource version, provided the server raises no fault. */
  lemma ExistingObjectIsReplaced(v: ClusterView, obj: DynamicObject)
    requires obj.metadata.name.Some? && Target(v, obj).Ok?
    requires var key := Target(v, obj).value;
      key in v.objects && GetRequest(key) !in v.faults && ReplaceRequest(key) !in v.faults
    ensures var key := Target(v, obj).value;
      CreateOrUpdateSpec(v, obj) == (Ok(()), v.objects[key := WithResourceVersionOf(obj, v.objects[key])])
  {
  }

  /** The decision on the outcome of `get`: 404 and 410 lead to a create of
      the object as given, any other API code is an error, and an error that
      is not an API error ends the operation successfully without a write. */
  lemma GetOutcomeDecides(v: ClusterView, obj: DynamicObject)
    requires obj.metadata.name.Some? && Target(v, obj).Ok?
    ensures var key := Target(v, obj).value;
      match GetResult(v, key)
      case Ok(_) => true
      case Err(ApiErr(code)) =>
        if NotFound(code) then
          CreateOrUpdateSpec(v, obj).1 == CreateStep(v, key, obj).1
          && (CreateOrUpdateSpec(v, obj).0.Ok? <==> CreateStep(v, key, obj).0.Ok?)
        else CreateOrUpdateSpec(v, obj) == (Err(GetFailed(code)), v.objects)
      case Err(OtherErr) => CreateOrUpdateSpec(v, obj) == (Ok(()), v.objects)
  {
  }

  /** Without faults the object is stored afterwards, and applying it a second
      time leaves the store as the first time did. */
  lemma CreateOrUpdateConverges(v: ClusterView, obj: DynamicObject)
    requires obj.metadata.name.Some? && Target(v, obj).Ok? && v.faults == map[]
    ensures var (res, after) := CreateOrUpdateSpec(v, obj);
      var key := Target(v, obj).value;
      && res.Ok?
      && key in after
      && after[key].data == obj.data && after[key].types == obj.types
      && after[key].metadata.name == obj.metadata.name
      && CreateOrUpdateSpec(v.(objects := after), obj).1 == after
  {
    var key := Target(v, obj).value;
    var after := CreateOrUpdateSpec(v, obj).1;
    assert Target(v.(objects := after), obj) == Target(v, obj);
  }

  /** A delete of an object that is gone succeeds and changes nothing; without
      faults the object is gone afterwards; other API codes fail, other errors
      are swallowed. */
  lemma DeleteIfExistsOutcome(v: ClusterView, obj: DynamicObject)
    requires obj.metadata.name.Some? && Target(v, obj).Ok?
    ensures var key := Target(v, obj).value;
      var (res, after) := DeleteIfExistsSpec(v, obj);
      && (v.faults == map[] ==> res.Ok? && key !in after && after == v.objects - {key})
      && (DeleteRequest(key) in v.faults && v.faults[DeleteRequest(key)].ApiErr? ==>
            (res.Ok? <==> NotFound(v.faults[DeleteRequest(key)].code)) && after == v.objects)
      && (DeleteRequest(key) in v.faults && v.faults[DeleteRequest(key)].OtherErr? ==>
            res.Ok? && after == v.objects)
  {
  }

  // ---------------------------------------------------------- the server

  /** The server as an object that requests update in place. `GetResult`,
      `CreateStep`, `ReplaceStep` and `DeleteStep` above are the reference
      definitions of its answers, and each method is proved to give exactly
      the answer and the new store they define. */
  class ApiServer {
    const discovery: Option<map<Gvk, Scope>>
    const defaultNamespace: string
    const faults: map<Request, KubeError>
    var objects: Store

    function View(): ClusterView
      reads this
    {
      ClusterView(discovery, defaultNamespace, faults, objects)
    }

    constructor (discovery: Option<map<Gvk, Scope>>, defaultNamespace: string,
                 faults: map<Request, KubeError>, objects: Store)
      ensures View() == ClusterView(discovery, defaultNamespace, faults, objects)
    {
      this.discovery := discovery;
      this.defaultNamespace := defaultNamespace;
      this.faults := faults;
      this.objects := objects;
    }

    method Get(key: ObjectKey) returns (r: Result<DynamicObject, KubeError>)
      ensures r == GetResult(View(), key)
    {
      if GetRequest(key) in faults {
        r := Err(faults[GetRequest(key)]);
      } else if key in objects {
        r := Ok(objects[key]);
      } else {
        r := Err(ApiErr(404));
      }
    }

    method Create(key: ObjectKey, obj: DynamicObject) returns (r: Result<(), KubeError>)
      modifies this
      ensures (r, objects) == CreateStep(old(View()), key, obj)
    {
      if CreateRequest(key) in faults {
        r := Err(faults[CreateRequest(key)]);
      } else if key in objects {
        r := Err(ApiErr(409));
      } else {
        objects := objects[key := obj];
        r := Ok(());
      }
    }

    method Replace(key: ObjectKey, obj: DynamicObject) returns (r: Result<(), KubeError>)
      modifies this
      ensures (r, objects) == ReplaceStep(old(View()), key, obj)
    {
      if ReplaceRequest(key) in faults {
        r := Err(faults[ReplaceRequest(key)]);
      } else if key !in objects {
        r := Err(ApiErr(404));
      } else {
        objects := objects[key := obj];
        r := Ok(());
      }
    }

    method Delete(key: ObjectKey) returns (r: Result<(), KubeError>)
      modifies this
      ensures (r, objects) == DeleteStep(old(View()), key)
    {
      if DeleteRequest(key) in faults {
        r := Err(faults[DeleteRequest(key)]);
      } else if key !in objects {
        r := Err(ApiErr(404));
      } else {
        objects := objects - {key};
        r := Ok(());
      }
    }
  }

  /** Discovery, `gvk` and `dynamic_api`, in the order the source runs them. */
  method ResolveTarget(server: ApiServer, obj: DynamicObject) returns (r: Result<ObjectKey, ApplyError>)
    requires obj.metadata.name.Some?
    ensures r == Target(server.View(), obj)
  {
    if server.discovery.None? {
      return Err(DiscoveryFailed);
    }
    var namespace := obj.metadata.namespace;
    var gvk := GvkOf(obj);
    if gvk.Err? {
      return Err(gvk.error);
    }
    if gvk.value !in server.discovery.value {
      return Err(GvkNotResolved);
    }
    var api := DynamicApi(server.discovery.value[gvk.value], namespace, false);
    r := Ok(ObjectKey(gvk.value, RequestNamespace(api, server.defaultNamespace), obj.metadata.name.value));
  }

  method ApplyCreateOrUpdate(server: ApiServer, obj: DynamicObject) returns (r: Result<(), ApplyError>)
    requires obj.metadata.name.Some?
    modifies server
    ensures (r, server.objects) == CreateOrUpdateSpec(old(server.View()), obj)
  {
    var target := ResolveTarget(server, obj);
    if target.Err? {
      return Err(target.error);
    }
    var key := target.value;
    var existing := server.Get(key);
    match existing {
      case Ok(existingObj) =>
        var updated := WithResourceVersionOf(obj, existingObj);
        var res := server.Replace(key, updated);
        if res.Err? {
          return Err(ReplaceFailed(res.error));
        }
      case Err(e) =>
        if e.ApiErr? {
          if NotFound(e.code) {
            var res := server.Create(key, obj);
            if res.Err? {
              return Err(CreateFailed(res.error));
            }
          } else {
            return Err(GetFailed(e.code));
          }
        }
    }
    r := Ok(());
  }

  method ApplyDeleteIfExists(server: ApiServer, obj: DynamicObject) returns (r: Result<(), ApplyError>)
    requires obj.metadata.name.Some?
    modifies server
    ensures (r, server.objects) == DeleteIfExistsSpec(old(server.View()), obj)
  {
    var target := ResolveTarget(server, obj);
    if target.Err? {
      return Err(target.error);
    }
    var res := server.Delete(target.value);
    if res.Err? && res.error.ApiErr? && !NotFound(res.error.code) {
      return Err(DeleteFailed(res.error.code));
    }
    r := Ok(());
  }

  method Apply(server: ApiServer, op: Operation) returns (r: Result<DynamicObject, ApplyError>)
    requires op.target.metadata.name.Some?
    modifies server
    ensures (r, server.objects) == ApplySpec(old(server.View()), op)
  {
    var res;
    match op {
      case CreateOrUpdate(obj) =>
        res := ApplyCreateOrUpdate(server, obj);
      case DeleteIfExists(obj) =>
        res := ApplyDeleteIfExists(server, obj);
    }
    if res.Err? {
      return Err(res.error);
    }
    r := Ok(op.target);
  }
}
