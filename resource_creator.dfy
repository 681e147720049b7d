/** The entry point of the resource creators (controller/src/resource_creator/mod.rs):
    the metadata and labels shared by an application's objects, and the
    operations of the Deployment creator followed by those of the Service creator. */
module ResourceCreator {
  import opened Wrappers
  import opened K8s
  import opened Common
  import Api
  import Models
  import DeploymentCreator
  import ServiceCreator

  /** The metadata handed to the creators: the application's name, its
      namespace or "default", and the two yakup labels. */
  function SharedMeta(app: Api.Application): (m: ObjectMeta)
    ensures m.name == Some(app.name) && m.namespace == Some(AppNamespace(app.namespace))
    ensures m.labels == Some(AppLabels(app.name))
    ensures m.annotations.None? && m.resourceVersion.None?
  {
    EmptyMeta.(name := Some(app.name), namespace := Some(AppNamespace(app.namespace)), labels := Some(AppLabels(app.name)))
  }

  /** `process`: the Deployment's operation, then the Service's; an error of
      either creator is the result, and no operation is returned then. */
  function Process(ser: Serializer, app: Api.Application): (r: Result<seq<Models.Operation>, Error>)
    ensures r.Ok? <==>
      DeploymentCreator.Process(ser, app).Ok?
      && ServiceCreator.Process(ser, app, SharedMeta(app), AppLabels(app.name)).Ok?
    ensures r.Err? ==> r.error == ConfigError
    ensures r.Ok? ==> |r.value| == 2
    ensures r.Ok? ==> forall op :: op in r.value ==>
      op.target.metadata.name == Some(app.name)
      && op.target.metadata.namespace == Some(AppNamespace(app.namespace))
    ensures r.Ok? ==> r.value[0] == DeploymentCreator.Process(ser, app).value[0]
    ensures r.Ok? ==> r.value[1] == ServiceCreator.Process(ser, app, SharedMeta(app), AppLabels(app.name)).value[0]
  {
    var deployment :- DeploymentCreator.Process(ser, app);
    var service :- ServiceCreator.Process(ser, app, SharedMeta(app), AppLabels(app.name));
    Ok(deployment + service)
  }

  /** The Deployment comes first, the Service second, and the Service is
      deleted exactly when the application declares no ports. */
  lemma ProcessedObjects(ser: Serializer, app: Api.Application)
    requires Process(ser, app).Ok?
    ensures var ops := Process(ser, app).value;
      ops[0].CreateOrUpdate? && ops[0].target.types == Some(TypeMeta("apps/v1", "Deployment"))
      && ops[1].target.types == Some(TypeMeta("v1", "Service"))
      && (ops[1].DeleteIfExists? <==> app.spec.ports == [])
  {
  }
}
