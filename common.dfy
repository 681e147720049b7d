/** What the resource creators share (controller/src/resource_creator/mod.rs):
    the conversion of a typed resource to a `DynamicObject`, the two-entry
    label map that marks an application's objects, and the namespace default. */
module Common {
  import opened Wrappers
  import opened K8s

  /** The creators' errors: a serialization failure (`Error::ConfigError`)
      and an ingress entry naming a zone that is not known. */
  datatype Error = ConfigError | ZoneNotFound

  /** The top-level keys that `to_dynamic_object` removes from the data. */
  const TypeKeys: set<string> := {"kind", "apiVersion", "metadata"}

  /** The key removal of `to_dynamic_object`: only a JSON object loses keys. */
  function StripTypeKeys(data: Json): (r: Json)
    ensures data.JObject? <==> r.JObject?
    ensures !data.JObject? ==> r == data
    ensures data.JObject? ==> r.fields.Keys == data.fields.Keys - TypeKeys
    ensures data.JObject? ==> forall k :: k in r.fields ==> r.fields[k] == data.fields[k]
  {
    match data
    case JObject(fields) => JObject(fields - TypeKeys)
    case _ => data
  }

  /** Stripping twice removes nothing more. */
  lemma StripIsIdempotent(data: Json)
    ensures StripTypeKeys(StripTypeKeys(data)) == StripTypeKeys(data)
  {
    if data.JObject? {
      var once := StripTypeKeys(data);
      assert once.fields - TypeKeys == once.fields;
    }
  }

  /** `to_dynamic_object`: the type metadata of the resource's kind, its own
      metadata unchanged, and its serialization without the type keys; a
      serialization failure is a `ConfigError`. */
  function ToDynamicObject(ser: Serializer, res: Resource): (r: Result<DynamicObject, Error>)
    ensures r.Err? <==> ser(res).None?
    ensures r.Err? ==> r.error == ConfigError
    ensures r.Ok? ==> r.value.types == Some(TypeMetaOf(res)) && r.value.metadata == MetaOf(res)
    ensures r.Ok? ==> forall k :: k in TypeKeys && r.value.data.JObject? ==> k !in r.value.data.fields
    ensures r.Ok? && ser(res).value.JObject? ==>
      r.value.data.JObject?
      && forall k :: k in ser(res).value.fields && k !in TypeKeys ==>
           k in r.value.data.fields && r.value.data.fields[k] == ser(res).value.fields[k]
  {
    match ser(res)
    case None => Err(ConfigError)
    case Some(data) => Ok(DynamicObject(Some(TypeMetaOf(res)), MetaOf(res), StripTypeKeys(data)))
  }

  /** The labels on every object made for an application. */
  function AppLabels(appName: string): (l: Labels)
    ensures l.Keys == {"app.kubernetes.io/name", "app.kubernetes.io/managed-by"}
    ensures l["app.kubernetes.io/name"] == appName && l["app.kubernetes.io/managed-by"] == "yakup"
  {
    map["app.kubernetes.io/name" := appName, "app.kubernetes.io/managed-by" := "yakup"]
  }

  /** `app.namespace().unwrap_or("default")`. */
  function AppNamespace(ns: Option<string>): (n: string)
    ensures ns.Some? ==> n == ns.value
    ensures ns.None? ==> n == "default"
  {
    ns.GetOr("default")
  }

  /** Labels of two applications agree only when their names do. */
  lemma AppLabelsIdentifyApp(a: string, b: string)
    ensures AppLabels(a) == AppLabels(b) <==> a == b
  {
    if AppLabels(a) == AppLabels(b) {
      assert AppLabels(a)["app.kubernetes.io/name"] == AppLabels(b)["app.kubernetes.io/name"];
    }
  }
}
