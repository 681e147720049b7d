/** The Deployment creator (controller/src/resource_creator/deployment.rs):
    one Deployment running the application's image in a single container. */
module DeploymentCreator {
  import opened Wrappers
  import opened K8s
  import opened Common
  import Api
  import Models

  /** The Deployment for an application. */
  function DeploymentFor(app: Api.Application): (d: Deployment)
    ensures d.metadata == EmptyMeta.(name := Some(app.name), namespace := Some(AppNamespace(app.namespace)))
    ensures d.spec.Some? && d.spec.value.replicas == Some(1)
    ensures d.spec.value.selector.matchLabels == Some(AppLabels(app.name))
    ensures d.spec.value.template.metadata == Some(EmptyMeta.(labels := Some(AppLabels(app.name))))
    ensures d.spec.value.template.spec == Some(PodSpec([Container(app.name, Some(app.spec.image))]))
  {
    var labels := AppLabels(app.name);
    Deployment(
      EmptyMeta.(name := Some(app.name), namespace := Some(AppNamespace(app.namespace))),
      Some(DeploymentSpec(
        Some(1),
        LabelSelector(Some(labels)),
        PodTemplateSpec(Some(EmptyMeta.(labels := Some(labels))), Some(PodSpec([Container(app.name, Some(app.spec.image))]))))))
  }

  /** The Deployment's selector selects its own pods, and no pod of another
      application made by this controller. */
  lemma SelectorMatchesOwnPods(app: Api.Application, other: Api.Application)
    ensures var spec := DeploymentFor(app).spec.value;
      Selects(spec.selector, spec.template.metadata.value.labels)
    ensures var spec := DeploymentFor(app).spec.value;
      var otherPods := DeploymentFor(other).spec.value.template.metadata.value.labels;
      Selects(spec.selector, otherPods) <==> app.name == other.name
  {
    var spec := DeploymentFor(app).spec.value;
    var otherPods := DeploymentFor(other).spec.value.template.metadata.value.labels;
    if Selects(spec.selector, otherPods) {
      var key := "app.kubernetes.io/name";
      assert otherPods.GetOr(map[]) == AppLabels(other.name);
      assert spec.selector.matchLabels.GetOr(map[]) == AppLabels(app.name);
      assert key in AppLabels(app.name);
      assert AppLabels(other.name)[key] == AppLabels(app.name)[key];
    }
  }

  /** `process`: exactly one `CreateOrUpdate`, of a Deployment named after
      the application in its namespace; only a serialization failure fails. */
  function Process(ser: Serializer, app: Api.Application): (r: Result<seq<Models.Operation>, Error>)
    ensures r.Err? <==> ser(DeploymentResource(DeploymentFor(app))).None?
    ensures r.Err? ==> r.error == ConfigError
    ensures r.Ok? ==> |r.value| == 1 && r.value[0].CreateOrUpdate?
    ensures r.Ok? ==> r.value[0].target.types == Some(TypeMeta("apps/v1", "Deployment"))
    ensures r.Ok? ==> r.value[0].target.metadata.name == Some(app.name)
    ensures r.Ok? ==> r.value[0].target.metadata.namespace == Some(AppNamespace(app.namespace))
    ensures r.Ok? ==>
      var converted := ToDynamicObject(ser, DeploymentResource(DeploymentFor(app)));
      converted.Ok? && r.value[0].target == converted.value
  {
    var obj :- ToDynamicObject(ser, DeploymentResource(DeploymentFor(app)));
    Ok([Models.CreateOrUpdate(obj)])
  }
}
