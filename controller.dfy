/** The two reconcilers and their error policies (controller/src/lib.rs): the
    zone reconciler fills the cache of ingress zones, the application
    reconciler applies the operations of the resource creators in order and
    stops at the first failure. */
module Controller {
  import opened Wrappers
  import opened K8s
  import Api
  import Models
  import ResourceCreator
  import IngressCreator

  datatype ReconcilerError = GvkLookup | ResourceProcessing | ApplyOperations

  /** `Action::requeue(Duration::from_secs(seconds))`. */
  datatype Action = Requeue(seconds: nat)

  /** The controller's shared state: the zone cache and the API server. */
  class Context {
    var ingressZones: IngressCreator.Zones
    const server: Models.ApiServer

    constructor (server: Models.ApiServer)
      ensures ingressZones == map[] && this.server == server
    {
      ingressZones := map[];
      this.server := server;
    }
  }

  // ------------------------------------------------------------ the zones

  /** The cache after a zone is reconciled: the zone under its name,
      replacing any earlier entry, and every other entry as it was. */
  function CacheZone(zones: IngressCreator.Zones, zone: Api.IngressZone): (z: IngressCreator.Zones)
    requires zone.name.Some?
    ensures z.Keys == zones.Keys + {zone.name.value}
    ensures z[zone.name.value] == zone
    ensures forall k :: k in zones && k != zone.name.value ==> z[k] == zones[k]
  {
    zones[zone.name.value := zone]
  }

  /** A cache filled only by `reconcile_zones` keeps every zone under its own
      name, which the Ingress creator's lemmas rely on. */
  lemma {:induction false} CachingKeepsZonesKeyedByName(zones: IngressCreator.Zones, zone: Api.IngressZone)
    requires zone.name.Some? && IngressCreator.ZonesKeyedByName(zones)
    ensures IngressCreator.ZonesKeyedByName(CacheZone(zones, zone))
  {
    var z := CacheZone(zones, zone);
    forall k | k in z
      ensures z[k].name == Some(k)
    {
      if k != zone.name.value {
        assert k in zones;
      }
    }
  }

  /** `reconcile_zones`: caches the zone and asks to be called again in an hour.
      A zone always has a name once the API server has stored it. */
  method ReconcileZones(ctx: Context, zone: Api.IngressZone) returns (r: Result<Action, ReconcilerError>)
    requires zone.name.Some?
    modifies ctx
    ensures ctx.ingressZones == CacheZone(old(ctx.ingressZones), zone)
    ensures r == Ok(Requeue(3600))
  {
    var zoneName := zone.name.value;
    ctx.ingressZones := ctx.ingressZones[zoneName := zone];
    r := Ok(Requeue(3600));
  }

  // ------------------------------------------------------- the applications

  predicate AllNamed(ops: seq<Models.Operation>) {
    forall op :: op in ops ==> op.target.metadata.name.Some?
  }

  /** The `for` loop of `reconcile_apps`: the operations are applied in
      order; the first failed `apply` is `ApplyOperations`, a failed `gvk`
      after a successful `apply` is `GvkLookup`, and nothing after a failure
      is applied. Gives the error, if any, and the store afterwards: a
      first operation that fails stops the loop before anything changes, a
      list of deletes never adds an object and a list of create-or-updates
      never removes one. */
  function ApplyOps(v: Models.ClusterView, ops: seq<Models.Operation>): (r: (Option<ReconcilerError>, Models.Store))
    requires AllNamed(ops)
    ensures ops != [] && Models.ApplySpec(v, ops[0]).0.Err? ==> r == (Some(ApplyOperations), v.objects)
    ensures (forall i :: 0 <= i < |ops| ==> ops[i].DeleteIfExists?) ==> r.1.Keys <= v.objects.Keys
    ensures (forall i :: 0 <= i < |ops| ==> ops[i].CreateOrUpdate?) ==> r.1.Keys >= v.objects.Keys
    decreases |ops|
  {
    if ops == [] then (None, v.objects)
    else
      var (res, after) := Models.ApplySpec(v, ops[0]);
      if res.Err? then (Some(ApplyOperations), after)
      else if Models.GvkOf(res.value).Err? then (Some(GvkLookup), after)
      else ApplyOps(v.(objects := after), ops[1..])
  }

  /** Applying a list is applying its first part and then, unless that
      failed, the rest on the resulting store; after a failure the
      operations that follow change nothing. */
  lemma {:induction false} ApplyOpsAppend(v: Models.ClusterView, a: seq<Models.Operation>, b: seq<Models.Operation>)
    requires AllNamed(a) && AllNamed(b)
    ensures AllNamed(a + b)
    ensures var (err, after) := ApplyOps(v, a);
      ApplyOps(v, a + b) == if err.Some? then (err, after) else ApplyOps(v.(objects := after), b)
    decreases |a|
  {
    if a == [] {
      assert a + b == b;
    } else {
      assert (a + b)[0] == a[0];
      assert (a + b)[1..] == a[1..] + b;
      var (res, after) := Models.ApplySpec(v, a[0]);
      if res.Ok? && Models.GvkOf(res.value).Ok? {
        ApplyOpsAppend(v.(objects := after), a[1..], b);
      }
    }
  }

  /** `gvk` never fails after a successful `apply`: the `GvkLookup` error
      cannot occur, and a failure is always `ApplyOperations`. */
  lemma {:induction false} ApplyOpsNeverGvkLookup(v: Models.ClusterView, ops: seq<Models.Operation>)
    requires AllNamed(ops)
    ensures ApplyOps(v, ops).0.Some? ==> ApplyOps(v, ops).0 == Some(ApplyOperations)
    decreases |ops|
  {
    if ops != [] {
      Models.ApplyOutcome(v, ops[0]);
      var (res, after) := Models.ApplySpec(v, ops[0]);
      if res.Ok? {
        ApplyOpsNeverGvkLookup(v.(objects := after), ops[1..]);
      }
    }
  }

  /** What `reconcile_apps` returns and the store it leaves. */
  function ReconcileAppsSpec(v: Models.ClusterView, ser: Serializer, app: Api.Application)
    : (r: (Result<Action, ReconcilerError>, Models.Store))
    ensures ResourceCreator.Process(ser, app).Err? ==> r == (Err(ResourceProcessing), v.objects)
    ensures r.0.Ok? ==> r.0.value == Requeue(3600)
    ensures r.0.Err? ==> r.0.error == ResourceProcessing || r.0.error == ApplyOperations
  {
    match ResourceCreator.Process(ser, app)
    case Err(_) => (Err(ResourceProcessing), v.objects)
    case Ok(ops) =>
      ApplyOpsNeverGvkLookup(v, ops);
      var (err, after) := ApplyOps(v, ops);
      (if err.Some? then Err(err.value) else Ok(Requeue(3600)), after)
  }

  /** A processing error applies nothing; otherwise the outcome is an hour's
      requeue exactly when every operation applied, and `ApplyOperations`
      otherwise. */
  lemma ReconcileAppsOutcome(v: Models.ClusterView, ser: Serializer, app: Api.Application)
    ensures ResourceCreator.Process(ser, app).Err? ==>
      ReconcileAppsSpec(v, ser, app) == (Err(ResourceProcessing), v.objects)
    ensures ResourceCreator.Process(ser, app).Ok? ==>
      var (r, _) := ReconcileAppsSpec(v, ser, app);
      && (r.Ok? <==> ApplyOps(v, ResourceCreator.Process(ser, app).value).0.None?)
      && (r.Ok? ==> r.value == Requeue(3600))
      && (r.Err? ==> r.error == ApplyOperations)
  {
    if ResourceCreator.Process(ser, app).Ok? {
      ApplyOpsNeverGvkLookup(v, ResourceCreator.Process(ser, app).value);
    }
  }

  /** Without faults, an operation whose target resolves applies, and its
      object's kind is found again afterwards. */
  lemma AppliesWithoutFaults(v: Models.ClusterView, op: Models.Operation)
    requires v.faults == map[] && op.target.metadata.name.Some?
    requires Models.Target(v, op.target).Ok?
    ensures Models.ApplySpec(v, op).0.Ok? && Models.GvkOf(Models.ApplySpec(v, op).0.value).Ok?
  {
    if op.CreateOrUpdate? {
      Models.CreateOrUpdateConverges(v, op.target);
    } else {
      Models.DeleteIfExistsOutcome(v, op.target);
    }
    Models.ApplyOutcome(v, op);
  }

  /** On a server that serves Deployments and Services and raises no fault,
      every application whose objects serialize is reconciled. */
  lemma ReconcileSucceedsOnHealthyServer(v: Models.ClusterView, ser: Serializer, app: Api.Application)
    requires v.faults == map[] && v.discovery.Some?
    requires Models.Gvk("apps/v1", "Deployment") in v.discovery.value
    requires Models.Gvk("v1", "Service") in v.discovery.value
    requires ResourceCreator.Process(ser, app).Ok?
    ensures ReconcileAppsSpec(v, ser, app).0 == Ok(Requeue(3600))
  {
    var ops := ResourceCreator.Process(ser, app).value;
    ResourceCreator.ProcessedObjects(ser, app);
    assert Models.Target(v, ops[0].target).Ok?;
    AppliesWithoutFaults(v, ops[0]);
    var after := Models.ApplySpec(v, ops[0]).1;
    var w := v.(objects := after);
    assert Models.Target(w, ops[1].target).Ok?;
    AppliesWithoutFaults(w, ops[1]);
    var after1 := Models.ApplySpec(w, ops[1]).1;
    assert ops[1..][0] == ops[1] && ops[1..][1..] == [];
    assert ApplyOps(w, ops[1..]) == ApplyOps(w.(objects := after1), []);
    assert ApplyOps(v, ops) == ApplyOps(w, ops[1..]);
  }

  /** `reconcile_apps`. The zone cache is read as in the source, but the
      resource creators' `process` does not take it. */
  method ReconcileApps(ctx: Context, ser: Serializer, app: Api.Application) returns (r: Result<Action, ReconcilerError>)
    modifies ctx.server
    ensures (r, ctx.server.objects) == ReconcileAppsSpec(old(ctx.server.View()), ser, app)
  {
    var processed := ResourceCreator.Process(ser, app);
    if processed.Err? {
      return Err(ResourceProcessing);
    }
    var operations := processed.value;
    ghost var start := ctx.server.View();
    var i := 0;
    while i < |operations|
      invariant 0 <= i <= |operations|
      invariant AllNamed(operations[i..])
      invariant ctx.server.View() == start.(objects := ctx.server.objects)
      invariant ApplyOps(start, operations) == ApplyOps(ctx.server.View(), operations[i..])
    {
      ghost var before := ctx.server.View();
      assert operations[i..][0] == operations[i];
      assert operations[i..][1..] == operations[i + 1..];
      var applied := Models.Apply(ctx.server, operations[i]);
      var failure :=
        if applied.Err? then Some(ApplyOperations)
        else if Models.GvkOf(applied.value).Err? then Some(GvkLookup)
        else None;
      if failure.Some? {
        return Err(failure.value);
      }
      i := i + 1;
    }
    r := Ok(Requeue(3600));
  }

  /** `error_policy_apps`: whatever the error, retry in five seconds. */
  function ErrorPolicyApps(app: Api.Application, err: ReconcilerError): (a: Action)
    ensures a.seconds == 5
  {
    Requeue(5)
  }

  /** `error_policy_zones`: whatever the error, retry in five seconds. */
  function ErrorPolicyZones(zone: Api.IngressZone, err: ReconcilerError): (a: Action)
    ensures a.seconds == 5
  {
    Requeue(5)
  }
}
