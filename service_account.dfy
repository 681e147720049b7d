/** The ServiceAccount creator (controller/src/resource_creator/service_account.rs). */
module ServiceAccountCreator {
  import opened Wrappers
  import opened K8s
  import opened Common
  import Api
  import Models

  /** The ServiceAccount that `process` builds: the given metadata, and the
      token mounted into the pods. */
  function ServiceAccountFor(meta: ObjectMeta): (sa: ServiceAccount)
    ensures sa.metadata == meta
    ensures sa.automountServiceAccountToken == Some(true)
  {
    ServiceAccount(meta, Some(true))
  }

  /** `process`: one `CreateOrUpdate` of a ServiceAccount that carries the
      given metadata unchanged and mounts its token. */
  function Process(ser: Serializer, app: Api.Application, meta: ObjectMeta, labels: Labels)
    : (r: Result<seq<Models.Operation>, Error>)
    ensures r.Err? <==> ser(ServiceAccountResource(ServiceAccountFor(meta))).None?
    ensures r.Err? ==> r.error == ConfigError
    ensures r.Ok? ==> |r.value| == 1 && r.value[0].CreateOrUpdate?
    ensures r.Ok? ==> r.value[0].target.metadata == meta
    ensures r.Ok? ==> r.value[0].target.types == Some(TypeMeta("v1", "ServiceAccount"))
    ensures r.Ok? ==>
      var converted := ToDynamicObject(ser, ServiceAccountResource(ServiceAccountFor(meta)));
      converted.Ok? && r.value[0].target == converted.value
  {
    var obj :- ToDynamicObject(ser, ServiceAccountResource(ServiceAccountFor(meta)));
    Ok([Models.CreateOrUpdate(obj)])
  }

  /** The application and the labels play no part: only the metadata does. */
  lemma OnlyMetadataMatters(ser: Serializer, a1: Api.Application, a2: Api.Application,
                            meta: ObjectMeta, l1: Labels, l2: Labels)
    ensures Process(ser, a1, meta, l1) == Process(ser, a2, meta, l2)
  {
  }
}
