/** The Ingress creator (controller/src/resource_creator/ingress.rs): one
    Ingress per ingress entry of a port whose zone is known, and a delete for
    every `{app}-{zone}` name that the pruning leaves among the candidates. */
module IngressCreator {
  import opened Wrappers
  import opened Strings
  import opened K8s
  import opened Common
  import Api
  import Models

  /** The zone cache: zones by the name they were reconciled under. */
  type Zones = map<string, Api.IngressZone>

  /** Crockford base32 (lower case) of the MD5 digest of a host name. */
  type HostId = string -> string

  const ZoneLabel := "yakup.ibidem.no/ingress_zone"
  const IssuerAnnotation := "cert-manager.io/cluster-issuer"
  const AppNamePlaceholder := "{appname}"

  /** `format!("{}-{}", app, zone)`. */
  function IngressName(appName: string, zoneName: string): (n: string)
    ensures StartsWith(n, appName + "-")
    ensures n[|appName| + 1..] == zoneName
  {
    appName + "-" + zoneName
  }

  /** One application's Ingress names tell its zones apart. */
  lemma IngressNameIsInjective(appName: string, a: string, b: string)
    ensures IngressName(appName, a) == IngressName(appName, b) <==> a == b
  {
  }

  /** The zone cache keeps every zone under its own name, which
      `reconcile_zones` guarantees. */
  predicate ZonesKeyedByName(zones: Zones) {
    forall k :: k in zones ==> zones[k].name == Some(k)
  }

  // ------------------------------------------------------- generate_ingress

  /** The rule host: the zone's host with the application's name for every
      `{appname}`. */
  function RuleHost(zone: Api.IngressZone, appName: string): (h: string)
    ensures !Contains(zone.spec.host, AppNamePlaceholder) ==> h == zone.spec.host
  {
    ReplaceAll(zone.spec.host, AppNamePlaceholder, appName)
  }

  /** `{appname}` cannot overlap itself, so the host's first placeholder
      becomes the application's name and the rest of the host is templated
      in turn. */
  lemma RuleHostSubstitutes(zone: Api.IngressZone, appName: string, before: string, after: string)
    requires zone.spec.host == before + AppNamePlaceholder + after
    requires !Contains(before, AppNamePlaceholder)
    ensures RuleHost(zone, appName) == before + appName + ReplaceAll(after, AppNamePlaceholder, appName)
  {
    ReplaceFirstOccurrence(before, AppNamePlaceholder, after, appName);
  }

  /** The backend of every path: the application's Service, on its port "http". */
  function Backend(appName: string): IngressBackend {
    IngressBackend(Some(IngressServiceBackend(appName, Some(ServiceBackendPort(Some("http"), None)))))
  }

  /** The labels of a generated Ingress: the given ones, or none, with the zone label set. */
  function ZoneLabelled(labels: Option<Labels>, zoneName: string): (l: Labels)
    ensures l.Keys == labels.GetOr(map[]).Keys + {ZoneLabel}
    ensures l[ZoneLabel] == zoneName
    ensures forall k :: k in labels.GetOr(map[]) && k != ZoneLabel ==> l[k] == labels.value[k]
  {
    match labels
    case Some(existing) => existing[ZoneLabel := zoneName]
    case None => map[ZoneLabel := zoneName]
  }

  /** The metadata part of `generate_ingress`'s promise: named `{app}-{zone}`,
      the zone label added to the existing labels, namespace and resource
      version as given, annotations replaced only for a TLS zone. */
  predicate MetadataFollowsZone(m: ObjectMeta, app: Api.Application, zone: Api.IngressZone, meta: ObjectMeta) {
    && m.name == Some(IngressName(app.name, Api.ZoneName(zone)))
    && m.namespace == meta.namespace && m.resourceVersion == meta.resourceVersion
    && m.labels.Some?
    && m.labels.value.Keys == meta.labels.GetOr(map[]).Keys + {ZoneLabel}
    && m.labels.value[ZoneLabel] == Api.ZoneName(zone)
    && (forall k :: k in meta.labels.GetOr(map[]) && k != ZoneLabel ==> m.labels.value[k] == meta.labels.value[k])
    && (zone.spec.tls.Some? ==>
          m.annotations == Some(map[IssuerAnnotation := zone.spec.tls.value.clusterIssuer.GetOr("")]))
    && (zone.spec.tls.None? ==> m.annotations == meta.annotations)
  }

  /** The spec part: the zone's ingress class, one rule for the templated
      host with one path per entry path, in order, and TLS for a TLS zone. */
  predicate SpecFollowsZone(s: Option<IngressSpec>, app: Api.Application, zone: Api.IngressZone,
                            entry: Api.Ingress, hostId: HostId) {
    var host := RuleHost(zone, app.name);
    && s.Some?
    && s.value.ingressClassName == zone.spec.ingressClass
    && s.value.rules.Some? && |s.value.rules.value| == 1
    && s.value.rules.value[0].host == Some(host)
    && s.value.rules.value[0].http.Some?
    && |s.value.rules.value[0].http.value.paths| == |entry.paths|
    && (forall i :: 0 <= i < |entry.paths| ==>
          s.value.rules.value[0].http.value.paths[i] ==
            HttpIngressPath(Backend(app.name), Some(entry.paths[i]), Api.PathTypeDisplay(entry.pathType.GetOr(Api.Prefix))))
    && (zone.spec.tls.Some? ==>
          s.value.tls == Some([IngressTls(Some([host]), Some("cert-ingress-" + hostId(host)))]))
    && (zone.spec.tls.None? ==> s.value.tls.None?)
  }

  /** `generate_ingress`: "Ingress zone not found" when the entry's zone is
      not known, otherwise the Ingress that routes the entry's paths. */
  function GenerateIngress(app: Api.Application, zones: Zones, meta: ObjectMeta,
                           entry: Api.Ingress, hostId: HostId): (r: Result<Ingress, Error>)
    ensures r.Err? <==> entry.zone !in zones
    ensures r.Err? ==> r.error == ZoneNotFound
    ensures r.Ok? ==> MetadataFollowsZone(r.value.metadata, app, zones[entry.zone], meta)
    ensures r.Ok? ==> SpecFollowsZone(r.value.spec, app, zones[entry.zone], entry, hostId)
  {
    if entry.zone !in zones then Err(ZoneNotFound)
    else
      var zone := zones[entry.zone];
      var host := RuleHost(zone, app.name);
      var pathType := Api.PathTypeDisplay(entry.pathType.GetOr(Api.DefaultPathType()));
      var paths := seq(|entry.paths|, i requires 0 <= i < |entry.paths| =>
        HttpIngressPath(Backend(app.name), Some(entry.paths[i]), pathType));
      var labelled := meta.(name := Some(IngressName(app.name, Api.ZoneName(zone))),
                            labels := Some(ZoneLabelled(meta.labels, Api.ZoneName(zone))));
      var (m, tls) :=
        match zone.spec.tls
        case Some(zoneTls) =>
          (labelled.(annotations := Some(map[IssuerAnnotation := zoneTls.clusterIssuer.GetOr("")])),
           Some([IngressTls(Some([host]), Some("cert-ingress-" + hostId(host)))]))
        case None => (labelled, None);
      Ok(Ingress(m, Some(IngressSpec(zone.spec.ingressClass,
                                     Some([IngressRule(Some(host), Some(HttpIngressRuleValue(paths)))]),
                                     tls))))
  }

  // ------------------------------------------------------ generate_ingresses

  /** The entries whose zone is known, in order. */
  function ServedEntries(entries: seq<Api.Ingress>, zones: Zones): (s: seq<Api.Ingress>)
    ensures |s| <= |entries|
    ensures forall e :: e in s <==> e in entries && e.zone in zones
  {
    if entries == [] then []
    else (if entries[0].zone in zones then [entries[0]] else []) + ServedEntries(entries[1..], zones)
  }

  lemma {:induction false} ServedEntriesAppend(a: seq<Api.Ingress>, b: seq<Api.Ingress>, zones: Zones)
    ensures ServedEntries(a + b, zones) == ServedEntries(a, zones) + ServedEntries(b, zones)
  {
    if a == [] {
      assert a + b == b;
    } else {
      assert (a + b)[1..] == a[1..] + b;
      ServedEntriesAppend(a[1..], b, zones);
    }
  }

  /** `generate_ingresses`: the Ingresses of a port's entries, in order; an
      entry with an unknown zone is dropped and does not fail the port
      (see `GenerateIngressesServed`). */
  function GenerateIngresses(app: Api.Application, zones: Zones, meta: ObjectMeta,
                             entries: seq<Api.Ingress>, hostId: HostId): (r: seq<Ingress>)
    ensures |r| <= |entries|
  {
    if entries == [] then []
    else
      var rest := GenerateIngresses(app, zones, meta, entries[1..], hostId);
      match GenerateIngress(app, zones, meta, entries[0], hostId)
      case Ok(ingress) => [ingress] + rest
      case Err(_) => rest
  }

  /** One Ingress per served entry, in order, each the one `generate_ingress`
      makes of that entry. */
  lemma {:induction false} GenerateIngressesServed(app: Api.Application, zones: Zones, meta: ObjectMeta,
                                                   entries: seq<Api.Ingress>, hostId: HostId)
    ensures |GenerateIngresses(app, zones, meta, entries, hostId)| == |ServedEntries(entries, zones)|
    ensures forall i :: 0 <= i < |ServedEntries(entries, zones)| ==>
      GenerateIngress(app, zones, meta, ServedEntries(entries, zones)[i], hostId)
        == Ok(GenerateIngresses(app, zones, meta, entries, hostId)[i])
  {
    if entries != [] {
      GenerateIngressesServed(app, zones, meta, entries[1..], hostId);
      var r := GenerateIngresses(app, zones, meta, entries, hostId);
      var rest := GenerateIngresses(app, zones, meta, entries[1..], hostId);
      var served := ServedEntries(entries, zones);
      var servedRest := ServedEntries(entries[1..], zones);
      if entries[0].zone in zones {
        assert served == [entries[0]] + servedRest;
        assert r == [GenerateIngress(app, zones, meta, entries[0], hostId).value] + rest;
      } else {
        assert served == servedRest;
        assert r == rest;
      }
    }
  }

  lemma {:induction false} GenerateIngressesAppend(app: Api.Application, zones: Zones, meta: ObjectMeta,
                                                   a: seq<Api.Ingress>, b: seq<Api.Ingress>, hostId: HostId)
    ensures GenerateIngresses(app, zones, meta, a + b, hostId)
         == GenerateIngresses(app, zones, meta, a, hostId) + GenerateIngresses(app, zones, meta, b, hostId)
  {
    if a == [] {
      assert a + b == b;
    } else {
      assert (a + b)[1..] == a[1..] + b;
      GenerateIngressesAppend(app, zones, meta, a[1..], b, hostId);
    }
  }

  /** All ingress entries of all ports, in order. */
  function PortEntries(ports: seq<Api.Port>): (e: seq<Api.Ingress>)
    ensures forall p :: p in ports ==> forall x :: x in p.ingress ==> x in e
  {
    if ports == [] then [] else ports[0].ingress + PortEntries(ports[1..])
  }

  /** The `filter`/`flat_map` of `process`: the Ingresses of the ports that
      have ingress entries, port after port: at most one per entry, and
      none at all when no port has an entry. */
  function AllIngresses(app: Api.Application, zones: Zones, meta: ObjectMeta,
                        ports: seq<Api.Port>, hostId: HostId): (r: seq<Ingress>)
    ensures |r| <= |PortEntries(ports)|
    ensures (forall i :: 0 <= i < |ports| ==> ports[i].ingress == []) ==> r == []
  {
    if ports == [] then []
    else
      (if ports[0].ingress == [] then [] else GenerateIngresses(app, zones, meta, ports[0].ingress, hostId))
      + AllIngresses(app, zones, meta, ports[1..], hostId)
  }

  /** The served entries of all ports, in order. */
  function Served(ports: seq<Api.Port>, zones: Zones): seq<Api.Ingress> {
    ServedEntries(PortEntries(ports), zones)
  }

  /** The ports' Ingresses are those of their served entries, one each, in
      order: skipping the ports without entries changes nothing. */
  lemma {:induction false} AllIngressesAreServedEntries(app: Api.Application, zones: Zones, meta: ObjectMeta,
                                                        ports: seq<Api.Port>, hostId: HostId)
    ensures AllIngresses(app, zones, meta, ports, hostId)
         == GenerateIngresses(app, zones, meta, PortEntries(ports), hostId)
    ensures |AllIngresses(app, zones, meta, ports, hostId)| == |Served(ports, zones)|
    ensures forall i :: 0 <= i < |Served(ports, zones)| ==>
      GenerateIngress(app, zones, meta, Served(ports, zones)[i], hostId)
        == Ok(AllIngresses(app, zones, meta, ports, hostId)[i])
  {
    if ports != [] {
      AllIngressesAreServedEntries(app, zones, meta, ports[1..], hostId);
      GenerateIngressesAppend(app, zones, meta, ports[0].ingress, PortEntries(ports[1..]), hostId);
    }
    GenerateIngressesServed(app, zones, meta, PortEntries(ports), hostId);
  }

  // --------------------------------------------------------------- process

  /** The candidate delete set: `{app}-{k}` for every key of the zone cache. */
  function Candidates(appName: string, zones: Zones): (c: set<string>)
    ensures forall k :: k in zones ==> IngressName(appName, k) in c
    ensures forall n :: n in c ==> exists k :: k in zones && n == IngressName(appName, k)
  {
    set k | k in zones :: IngressName(appName, k)
  }

  /** The zone label of an Ingress, if it carries one. */
  function LabelOf(ingress: Ingress): Option<string> {
    var labels := ingress.metadata.labels.GetOr(map[]);
    if ZoneLabel in labels then Some(labels[ZoneLabel]) else None
  }

  /** The zone labels of a list of Ingresses. */
  function ZoneLabels(ingresses: seq<Ingress>): (s: set<string>)
    ensures forall l :: l in s <==> exists i :: 0 <= i < |ingresses| && LabelOf(ingresses[i]) == Some(l)
  {
    if ingresses == [] then {}
    else
      var last := ingresses[|ingresses| - 1];
      var init := ZoneLabels(ingresses[..|ingresses| - 1]);
      assert forall i :: 0 <= i < |ingresses| - 1 ==> ingresses[..|ingresses| - 1][i] == ingresses[i];
      init + (if LabelOf(last).Some? then {LabelOf(last).value} else {})
  }

  /** The pruning as written: the candidates less every zone label value. A
      label value is a bare zone name, so only a zone whose own name has the
      form `{app}-{k}` ever removes a candidate. */
  function PruneAsWritten(candidates: set<string>, ingresses: seq<Ingress>): (p: set<string>)
    ensures p <= candidates
    ensures forall n :: n in candidates && n !in ZoneLabels(ingresses) ==> n in p
  {
    candidates - ZoneLabels(ingresses)
  }

  /** The `CreateOrUpdate` operations of the Ingresses that convert, in
      order; the conversion failures are dropped. */
  function CreateOperations(ser: Serializer, ingresses: seq<Ingress>): (ops: seq<Models.Operation>)
    ensures |ops| <= |ingresses|
    ensures forall op :: op in ops ==> op.CreateOrUpdate?
    ensures forall op :: op in ops ==>
      (exists i :: 0 <= i < |ingresses| && ToDynamicObject(ser, IngressResource(ingresses[i])) == Ok(op.target))
  {
    if ingresses == [] then []
    else
      var init := CreateOperations(ser, ingresses[..|ingresses| - 1]);
      var last := ingresses[|ingresses| - 1];
      assert forall i :: 0 <= i < |ingresses| - 1 ==> ingresses[..|ingresses| - 1][i] == ingresses[i];
      match ToDynamicObject(ser, IngressResource(last))
      case Ok(obj) => init + [Models.CreateOrUpdate(obj)]
      case Err(_) => init
  }

  /** The Ingress a delete is made of: a name and the caller's namespace. */
  function DeleteResource(name: string, namespace: Option<string>): (r: Resource)
    ensures r.IngressResource? && r.ingress.spec.None?
    ensures TypeMetaOf(r) == TypeMeta("networking.k8s.io/v1", "Ingress")
    ensures MetaOf(r).name == Some(name) && MetaOf(r).namespace == namespace
    ensures MetaOf(r).labels.None? && MetaOf(r).annotations.None?
  {
    IngressResource(Ingress(EmptyMeta.(name := Some(name), namespace := namespace), None))
  }

  /** A delete of an Ingress with one of `names` in `namespace`. */
  predicate DeletesNamedIngress(op: Models.Operation, names: set<string>, namespace: Option<string>) {
    && op.DeleteIfExists?
    && op.target.types == Some(TypeMeta("networking.k8s.io/v1", "Ingress"))
    && op.target.metadata.name.Some? && op.target.metadata.name.value in names
    && op.target.metadata.namespace == namespace
  }

  /** The delete operations for a set of names (those that convert). */
  function DeleteOps(ser: Serializer, names: set<string>, namespace: Option<string>): (ops: set<Models.Operation>)
    ensures forall op :: op in ops ==> DeletesNamedIngress(op, names, namespace)
  {
    set n | n in names && ToDynamicObject(ser, DeleteResource(n, namespace)).Ok?
      :: Models.DeleteIfExists(ToDynamicObject(ser, DeleteResource(n, namespace)).value)
  }

  lemma DeleteOpsAdd(ser: Serializer, names: set<string>, n: string, namespace: Option<string>)
    requires ToDynamicObject(ser, DeleteResource(n, namespace)).Ok?
    ensures DeleteOps(ser, names + {n}, namespace)
         == DeleteOps(ser, names, namespace) + {Models.DeleteIfExists(ToDynamicObject(ser, DeleteResource(n, namespace)).value)}
  {
  }

  // ------------------------------------------------ the pruning, two ways

  /** The zones that some port's entry is served in. */
  function ServedZones(ports: seq<Api.Port>, zones: Zones): (z: set<string>)
    ensures z <= zones.Keys
  {
    set e | e in Served(ports, zones) :: e.zone
  }

  /** A zone cache none of whose keys has the form `{app}-{k}` of another key. */
  predicate NoZoneNamedLikeAnIngress(appName: string, zones: Zones) {
    forall k, k' :: k in zones && k' in zones ==> k != IngressName(appName, k')
  }

  /** In a cache keyed by name, every generated Ingress is named after the
      zone its entry names and carries that zone's name as its label. */
  lemma {:induction false} GeneratedNamesAndLabels(app: Api.Application, zones: Zones, meta: ObjectMeta,
                                                   hostId: HostId, i: int)
    requires ZonesKeyedByName(zones)
    requires 0 <= i < |AllIngresses(app, zones, meta, app.spec.ports, hostId)|
    ensures i < |Served(app.spec.ports, zones)|
    ensures var ingresses := AllIngresses(app, zones, meta, app.spec.ports, hostId);
      i < |Served(app.spec.ports, zones)| &&
      var zone := Served(app.spec.ports, zones)[i].zone;
      && zone in ServedZones(app.spec.ports, zones)
      && ingresses[i].metadata.name == Some(IngressName(app.name, zone))
      && LabelOf(ingresses[i]) == Some(zone)
  {
    AllIngressesAreServedEntries(app, zones, meta, app.spec.ports, hostId);
    var entry := Served(app.spec.ports, zones)[i];
    assert entry in Served(app.spec.ports, zones);
    assert entry.zone in zones;
  }

  /** As written, the pruning removes nothing when no zone is named like one
      of the application's Ingresses: every candidate is deleted, including
      those of the zones whose Ingresses were just generated. */
  lemma PruningAsWrittenRemovesNothing(app: Api.Application, zones: Zones, meta: ObjectMeta, hostId: HostId)
    requires ZonesKeyedByName(zones) && NoZoneNamedLikeAnIngress(app.name, zones)
    ensures var ingresses := AllIngresses(app, zones, meta, app.spec.ports, hostId);
      PruneAsWritten(Candidates(app.name, zones), ingresses) == Candidates(app.name, zones)
  {
    var ingresses := AllIngresses(app, zones, meta, app.spec.ports, hostId);
    forall l | l in ZoneLabels(ingresses)
      ensures l in zones
    {
      var i :| 0 <= i < |ingresses| && LabelOf(ingresses[i]) == Some(l);
      GeneratedNamesAndLabels(app, zones, meta, hostId, i);
    }
  }

  /** So every Ingress `process` creates is also among the names it deletes. */
  lemma CreatedIngressIsAlsoDeleted(app: Api.Application, zones: Zones, meta: ObjectMeta, hostId: HostId, i: int)
    requires ZonesKeyedByName(zones) && NoZoneNamedLikeAnIngress(app.name, zones)
    requires 0 <= i < |AllIngresses(app, zones, meta, app.spec.ports, hostId)|
    ensures var ingresses := AllIngresses(app, zones, meta, app.spec.ports, hostId);
      ingresses[i].metadata.name.Some?
      && ingresses[i].metadata.name.value in PruneAsWritten(Candidates(app.name, zones), ingresses)
  {
    GeneratedNamesAndLabels(app, zones, meta, hostId, i);
    PruningAsWrittenRemovesNothing(app, zones, meta, hostId);
  }

  /** The application and zone of the controller's golden test: one HTTP
      port exposed in zone "public", whose host is "{appname}.example.com". */
  const GoldenApp := Api.Application("test-app", None,
    Api.ApplicationSpec([], [], "image", [Api.Port(Api.HTTP, 8080, [Api.Ingress("public", Some(Api.Prefix), ["/"])])], None))
  const GoldenZones: Zones := map["public" := Api.IngressZone(Some("public"),
    Api.IngressZoneSpec("{appname}.example.com", None, None))]

  /** A host that starts with the placeholder and has no other `{` becomes
      the application's name followed by the rest of the host. */
  lemma LeadingPlaceholder(zone: Api.IngressZone, appName: string, rest: string)
    requires zone.spec.host == AppNamePlaceholder + rest
    requires forall i :: 0 <= i < |rest| ==> rest[i] != '{'
    ensures RuleHost(zone, appName) == appName + rest
  {
    MissingFirstCharNotContained(rest, AppNamePlaceholder);
    assert zone.spec.host == [] + AppNamePlaceholder + rest;
    RuleHostSubstitutes(zone, appName, [], rest);
  }

  /** The golden zone's host: "{appname}.example.com" becomes the
      application's name followed by ".example.com" ("test-app.example.com"
      for the golden application). */
  lemma GoldenHost(zone: Api.IngressZone, appName: string)
    requires zone.spec.host == GoldenZones["public"].spec.host
    ensures RuleHost(zone, appName) == appName + ".example.com"
  {
    var rest := ".example.com";
    assert zone.spec.host == AppNamePlaceholder + rest;
    LeadingPlaceholder(zone, appName, rest);
  }

  /** On that input the Ingress "test-app-public" is generated and its name
      is also left to be deleted. */
  lemma GoldenIngressIsDeleted(meta: ObjectMeta, hostId: HostId)
    ensures var ingresses := AllIngresses(GoldenApp, GoldenZones, meta, GoldenApp.spec.ports, hostId);
      && |ingresses| == 1
      && ingresses[0].metadata.name == Some("test-app-public")
      && PruneAsWritten(Candidates(GoldenApp.name, GoldenZones), ingresses) == {"test-app-public"}
  {
    var ports := GoldenApp.spec.ports;
    var entry := Api.Ingress("public", Some(Api.Prefix), ["/"]);
    assert ports[1..] == [];
    assert PortEntries(ports) == [entry];
    assert ServedEntries([entry][1..], GoldenZones) == [];
    assert Served(ports, GoldenZones) == [entry];
    assert ZonesKeyedByName(GoldenZones);
    assert GoldenZones.Keys == {"public"};
    assert IngressName("test-app", "public") == "test-app-public";
    assert Candidates(GoldenApp.name, GoldenZones) == {"test-app-public"};
    assert NoZoneNamedLikeAnIngress(GoldenApp.name, GoldenZones) by {
      assert |IngressName("test-app", "public")| != |"public"|;
    }
    AllIngressesAreServedEntries(GoldenApp, GoldenZones, meta, ports, hostId);
    GeneratedNamesAndLabels(GoldenApp, GoldenZones, meta, hostId, 0);
    PruningAsWrittenRemovesNothing(GoldenApp, GoldenZones, meta, hostId);
  }

  /** The names of a list of Ingresses. */
  function IngressNames(ingresses: seq<Ingress>): (s: set<string>)
    ensures forall i :: 0 <= i < |ingresses| && ingresses[i].metadata.name.Some? ==>
      ingresses[i].metadata.name.value in s
  {
    set i | 0 <= i < |ingresses| && ingresses[i].metadata.name.Some? :: ingresses[i].metadata.name.value
  }

  /** The pruning as intended: the candidates less the names of the Ingresses
      just generated, so that no generated Ingress is deleted. */
  function PruneIntended(candidates: set<string>, ingresses: seq<Ingress>): (p: set<string>)
    ensures p <= candidates
    ensures forall i :: 0 <= i < |ingresses| && ingresses[i].metadata.name.Some? ==>
      ingresses[i].metadata.name.value !in p
  {
    candidates - IngressNames(ingresses)
  }

  /** Every generated name is that of a served zone. */
  lemma GeneratedNamesAreServed(app: Api.Application, zones: Zones, meta: ObjectMeta, hostId: HostId)
    requires ZonesKeyedByName(zones)
    ensures var ingresses := AllIngresses(app, zones, meta, app.spec.ports, hostId);
      forall n :: n in IngressNames(ingresses) ==>
        exists k :: k in ServedZones(app.spec.ports, zones) && n == IngressName(app.name, k)
  {
    var ingresses := AllIngresses(app, zones, meta, app.spec.ports, hostId);
    forall n | n in IngressNames(ingresses)
      ensures exists k :: k in ServedZones(app.spec.ports, zones) && n == IngressName(app.name, k)
    {
      var i :| 0 <= i < |ingresses| && ingresses[i].metadata.name.Some? && ingresses[i].metadata.name.value == n;
      GeneratedNamesAndLabels(app, zones, meta, hostId, i);
    }
  }

  /** Every served zone has its Ingress generated. */
  lemma ServedZonesAreGenerated(app: Api.Application, zones: Zones, meta: ObjectMeta, hostId: HostId)
    requires ZonesKeyedByName(zones)
    ensures var ingresses := AllIngresses(app, zones, meta, app.spec.ports, hostId);
      forall k :: k in ServedZones(app.spec.ports, zones) ==> IngressName(app.name, k) in IngressNames(ingresses)
  {
    var ports := app.spec.ports;
    var ingresses := AllIngresses(app, zones, meta, ports, hostId);
    var served := Served(ports, zones);
    assert |ingresses| == |served| by {
      AllIngressesAreServedEntries(app, zones, meta, ports, hostId);
    }
    forall k | k in ServedZones(ports, zones)
      ensures IngressName(app.name, k) in IngressNames(ingresses)
    {
      var e :| e in served && e.zone == k;
      var i :| 0 <= i < |served| && served[i] == e;
      GeneratedNamesAndLabels(app, zones, meta, hostId, i);
      assert ingresses[i].metadata.name == Some(IngressName(app.name, k));
    }
  }

  /** With the intended pruning, exactly the Ingresses of the zones no entry
      is served in are deleted. */
  lemma IntendedPruningDeletesUnservedZones(app: Api.Application, zones: Zones, meta: ObjectMeta, hostId: HostId)
    requires ZonesKeyedByName(zones)
    ensures var ingresses := AllIngresses(app, zones, meta, app.spec.ports, hostId);
      PruneIntended(Candidates(app.name, zones), ingresses)
        == set k | k in zones && k !in ServedZones(app.spec.ports, zones) :: IngressName(app.name, k)
  {
    var ports := app.spec.ports;
    var ingresses := AllIngresses(app, zones, meta, ports, hostId);
    var served := ServedZones(ports, zones);
    GeneratedNamesAreServed(app, zones, meta, hostId);
    ServedZonesAreGenerated(app, zones, meta, hostId);
    forall k | k in zones
      ensures IngressName(app.name, k) in IngressNames(ingresses) <==> k in served
    {
      if IngressName(app.name, k) in IngressNames(ingresses) {
        var k' :| k' in served && IngressName(app.name, k) == IngressName(app.name, k');
        IngressNameIsInjective(app.name, k, k');
      }
    }
  }

  /** The `inspect` of `process`: each Ingress's zone label value is removed
      from the candidates. */
  method RemoveZoneLabels(candidates: set<string>, ingresses: seq<Ingress>) returns (possible: set<string>)
    ensures possible == PruneAsWritten(candidates, ingresses)
  {
    possible := candidates;
    var i := 0;
    while i < |ingresses|
      invariant 0 <= i <= |ingresses|
      invariant possible == candidates - ZoneLabels(ingresses[..i])
    {
      assert ingresses[..i + 1][..i] == ingresses[..i];
      var labels := ingresses[i].metadata.labels.GetOr(map[]);
      if ZoneLabel in labels {
        possible := possible - {labels[ZoneLabel]};
      }
      i := i + 1;
    }
    assert ingresses[..|ingresses|] == ingresses;
  }

  /** The `inspect` of `process` as intended: each generated Ingress's own
      name is removed from the candidates. */
  method RemoveGeneratedNames(candidates: set<string>, ingresses: seq<Ingress>) returns (possible: set<string>)
    ensures possible == PruneIntended(candidates, ingresses)
  {
    possible := candidates;
    var i := 0;
    while i < |ingresses|
      invariant 0 <= i <= |ingresses|
      invariant possible == candidates - IngressNames(ingresses[..i])
    {
      var done := ingresses[..i + 1];
      assert done[..i] == ingresses[..i];
      assert IngressNames(done) == IngressNames(ingresses[..i])
        + (if ingresses[i].metadata.name.Some? then {ingresses[i].metadata.name.value} else {}) by {
        forall n | n in IngressNames(done)
          ensures n in IngressNames(ingresses[..i]) || (ingresses[i].metadata.name == Some(n))
        {
          var j :| 0 <= j < |done| && done[j].metadata.name.Some? && done[j].metadata.name.value == n;
          if j < i {
            assert ingresses[..i][j] == done[j];
          }
        }
        forall n | n in IngressNames(ingresses[..i])
          ensures n in IngressNames(done)
        {
          var j :| 0 <= j < i && ingresses[..i][j].metadata.name.Some? && ingresses[..i][j].metadata.name.value == n;
          assert done[j] == ingresses[..i][j];
        }
        if ingresses[i].metadata.name.Some? {
          assert done[i] == ingresses[i];
        }
      }
      if ingresses[i].metadata.name.Some? {
        possible := possible - {ingresses[i].metadata.name.value};
      }
      i := i + 1;
    }
    assert ingresses[..|ingresses|] == ingresses;
  }

  /** The `map`/`filter_map` of `process` into `CreateOrUpdate` operations. */
  method ConvertCreates(ser: Serializer, ingresses: seq<Ingress>) returns (operations: seq<Models.Operation>)
    ensures operations == CreateOperations(ser, ingresses)
  {
    operations := [];
    var i := 0;
    while i < |ingresses|
      invariant 0 <= i <= |ingresses|
      invariant operations == CreateOperations(ser, ingresses[..i])
    {
      assert ingresses[..i + 1][..i] == ingresses[..i];
      var converted := ToDynamicObject(ser, IngressResource(ingresses[i]));
      if converted.Ok? {
        operations := operations + [Models.CreateOrUpdate(converted.value)];
      }
      i := i + 1;
    }
    assert ingresses[..|ingresses|] == ingresses;
  }

  /** One more delete keeps the creates in front and adds its name's
      operation to the deletes after them. */
  lemma AppendDeleteKeepsOps(ser: Serializer, deleted: set<string>, name: string, namespace: Option<string>,
                             creates: seq<Models.Operation>, operations: seq<Models.Operation>)
    requires ToDynamicObject(ser, DeleteResource(name, namespace)).Ok?
    requires |creates| <= |operations| && operations[..|creates|] == creates
    requires (set op | op in operations[|creates|..]) == DeleteOps(ser, deleted, namespace)
    ensures var after := operations + [Models.DeleteIfExists(ToDynamicObject(ser, DeleteResource(name, namespace)).value)];
      && after[..|creates|] == creates
      && (set op | op in after[|creates|..]) == DeleteOps(ser, deleted + {name}, namespace)
  {
    var op := Models.DeleteIfExists(ToDynamicObject(ser, DeleteResource(name, namespace)).value);
    var after := operations + [op];
    assert after[|creates|..] == operations[|creates|..] + [op];
    assert after[..|creates|] == operations[..|creates|];
    DeleteOpsAdd(ser, deleted, name, namespace);
  }

  /** The final `for` loop of `process`: one `DeleteIfExists` per name, in no
      particular order, appended to `creates`; the first name that does not
      convert ends the loop with its error. */
  method AppendDeletes(ser: Serializer, names: set<string>, namespace: Option<string>,
                       creates: seq<Models.Operation>)
    returns (r: Result<seq<Models.Operation>, Error>)
    ensures r.Ok? <==> forall n :: n in names ==> ToDynamicObject(ser, DeleteResource(n, namespace)).Ok?
    ensures r.Err? ==> r.error == ConfigError
    ensures r.Ok? ==>
      && |r.value| == |creates| + |names|
      && r.value[..|creates|] == creates
      && (set op | op in r.value[|creates|..]) == DeleteOps(ser, names, namespace)
  {
    var operations := creates;
    var remaining := names;
    ghost var deleted: set<string> := {};
    while remaining != {}
      invariant remaining !! deleted && remaining + deleted == names
      invariant |operations| == |creates| + |deleted|
      invariant operations[..|creates|] == creates
      invariant forall n :: n in deleted ==> ToDynamicObject(ser, DeleteResource(n, namespace)).Ok?
      invariant (set op | op in operations[|creates|..]) == DeleteOps(ser, deleted, namespace)
      decreases |remaining|
    {
      var name :| name in remaining;
      var converted := ToDynamicObject(ser, DeleteResource(name, namespace));
      if converted.Err? {
        return Err(converted.error);
      }
      AppendDeleteKeepsOps(ser, deleted, name, namespace, creates, operations);
      operations := operations + [Models.DeleteIfExists(converted.value)];
      remaining := remaining - {name};
      deleted := deleted + {name};
    }
    r := Ok(operations);
  }

  /** `process`: the `CreateOrUpdate`s of the generated Ingresses that convert,
      in order, then one `DeleteIfExists` per pruned candidate in no
      particular order. The pruning is the corrected one (`PruneIntended`),
      which keeps every generated Ingress; `RemoveZoneLabels` is the loop as
      written. A delete that does not convert fails the whole call. */
  method Process(ser: Serializer, app: Api.Application, zones: Zones, meta: ObjectMeta, hostId: HostId)
    returns (r: Result<seq<Models.Operation>, Error>)
    ensures var ingresses := AllIngresses(app, zones, meta, app.spec.ports, hostId);
      var pruned := PruneIntended(Candidates(app.name, zones), ingresses);
      r.Ok? <==> forall n :: n in pruned ==> ToDynamicObject(ser, DeleteResource(n, meta.namespace)).Ok?
    ensures r.Err? ==> r.error == ConfigError
    ensures var ingresses := AllIngresses(app, zones, meta, app.spec.ports, hostId);
      var pruned := PruneIntended(Candidates(app.name, zones), ingresses);
      var creates := CreateOperations(ser, ingresses);
      r.Ok? ==>
        && |r.value| == |creates| + |pruned|
        && r.value[..|creates|] == creates
        && (set op | op in r.value[|creates|..]) == DeleteOps(ser, pruned, meta.namespace)
  {
    var possible := set k | k in zones :: IngressName(app.name, k);
    var ingresses := AllIngresses(app, zones, meta, app.spec.ports, hostId);
    possible := RemoveGeneratedNames(possible, ingresses);
    var operations := ConvertCreates(ser, ingresses);
    r := AppendDeletes(ser, possible, meta.namespace, operations);
  }
}
