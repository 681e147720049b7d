# yakup, modelled in Dafny

yakup ("Yet Another Application Kind") is a Kubernetes operator. It watches
two custom resources. An `Application` names an image, its environment and
its ports, and for each port the ingress zones that expose it. An
`IngressZone` names a host template, an ingress class and optional TLS. For
each `Application` the controller computes a list of operations
(`CreateOrUpdate` or `DeleteIfExists` of a dynamic object), covering a
Deployment, a Service and the Ingresses. It applies them in order against
the API server. A small dagger pipeline (Python) builds, tests, packages and
publishes the controller and assembles its manifests.

This project models:

- the API types, with their serde defaults, `Display` forms and conversions (`Api`, `ApiApplication`);
- the resource creators (`Common`, `DeploymentCreator`, `ServiceCreator`,
  `ServiceAccountCreator`, `IngressCreator`, `ResourceCreator`);
- the operations and their application to an API server (`Models`);
- the two reconcilers and their error policies (`Controller`);
- the pipeline's container recipes and the manifest assembly (`Pipeline`).

`Wrappers` (Option/Result), `Strings` (prefix, suffix, replace, join, lower
case) and `K8s` (the Kubernetes object types used) are support modules.

The Kubernetes API server is the class `Models.ApiServer`: an in-memory map
of objects, a discovery table, and a map of injected faults per request.
Serialization (`serde_json::to_value`) is the parameter `ser`; `None` means
it failed. The MD5/base32 host id is the parameter `hostId`. Template
rendering is the parameter `render`.

Behaviour of the code that is easy to misread:

- the manifests are joined with "\n" and no trailing newline is added;
- every file in `deploy/` is a document; there is no extension filter;
- `publish` builds the Docker variants again for each tag;
- `docker` has no explicit check for a platform missing from `PLATFORM_TARGET`.
  It builds without a target and then looks for the binary under
  "target/None/", where cargo never writes it. The container is lazy, so it
  fails when it is evaluated (by `publish` or an export), not at the call.
  `UnmappedPlatform` is the model's name for that failure, which
  `Pipeline.Docker` returns as an error;
- `test` runs nextest before clippy.

`resource_creator::process` in controller/src/resource_creator/mod.rs takes
only the application. It calls the service creator with shared metadata and
labels. It calls the deployment creator, whose own signature takes only the
application, and the deployment creator builds its own metadata. `reconcile_apps`
passes the zone cache as well; the model's `ResourceCreator.Process` takes
only the application, as mod.rs declares. The service-account and ingress
creators are not called from mod.rs. They are modelled as the standalone
functions their files define.

Each of the two Findings below is kept twice: a member states the code as
written and exhibits the defect, and the rest of the model uses the corrected
definition. `IngressCreator.Process` prunes with `PruneIntended`, and
`Pipeline.Build`, and so `Docker` and `Publish`, take the binary from
`BuildPath`.

## Model

| member | source | states |
|---|---|---|
| Api.DefaultPortKind | api/src/lib.rs:197-204 | the default port kind is the one printed "HTTP" |
| Api.KindDisplay | api/src/lib.rs:212-216 | a port kind prints as its `Debug` form, the variant name: "HTTP", "Metrics" or "TCP" |
| Api.DefaultPathType | api/src/lib.rs:146-151 | the default path type is the one printed "Prefix" |
| Api.PathTypeDisplay | api/src/lib.rs:153-157 | a path type prints as its variant name: "Prefix" or "Exact" |
| Api.DisplaysAreInjective | api/src/lib.rs:153-157 | two port kinds, or two path types, print alike iff they are equal |
| Api.PortName | api/src/lib.rs:206-210 | a port's name is its kind's display form in lower case: "http", "metrics" or "tcp" |
| Api.PortNames | api/src/lib.rs:206-216 | two ports share a name iff they share a kind |
| Api.ToKube | api/src/lib.rs:122-130 | the Kubernetes variable has the same name, `Some` of the value and no `valueFrom` |
| Api.ToKubeIsInjective | api/src/lib.rs:117-130 | different environment values never convert to the same Kubernetes variable |
| Api.EnvFromNamesOneSource | api/src/lib.rs:51-55 | the documented rule for an `envFrom` item accepts only an item that names a source, and never one that names both |
| Api.EnvFromRule | api/src/lib.rs:51-55 | the documented one-source rule for `envFrom` rejects the default item and an item with both sources, and accepts each single source |
| Api.DefaultInitialDelaySeconds | api/src/lib.rs:251-253 | the default initial delay is 15 seconds |
| Api.DefaultHttpPath | api/src/lib.rs:266-268 | the default HTTP probe path is `Some("/")` |
| Api.DefaultGrpcService | api/src/lib.rs:290-292 | the default gRPC service is `None` |
| Api.DefaultHttpAction | api/src/lib.rs:270-277 | `HttpAction::default()` has path "/" and the derived default configuration (delay 0, empty port name), not the serde default of 15 |
| Api.DefaultGrpcAction | api/src/lib.rs:294-301 | `GrpcAction::default()` has no service and the derived default configuration |
| Api.DecodeIngress | api/src/lib.rs:159-179 | an omitted `pathType` becomes `Some(Prefix)` and omitted `paths` become ["/"]; given fields are kept |
| Api.EncodeIngress | api/src/lib.rs:159-179 | serializing skips exactly a `None` path type and an empty path list, and writes the zone and every other field as it is |
| Api.IngressRoundTrip | api/src/lib.rs:159-179 | serializing and deserializing an ingress entry gives it back iff it has a path type and at least one path |
| Api.IngressRoundTripSettles | api/src/lib.rs:159-179 | after one round trip, a second round trip changes nothing |
| Api.DecodeProbeConfig | api/src/lib.rs:229-236 | an omitted initial delay becomes 15; a given one and the port name are kept |
| Api.EncodeProbeConfig | api/src/lib.rs:229-236 | the initial delay is always written, so a configuration reads back unchanged |
| Api.DecodeHttpAction | api/src/lib.rs:255-268 | an omitted path becomes `Some("/")`; a given path is kept |
| Api.EncodeHttpAction | api/src/lib.rs:255-268 | the path is skipped iff it is `None`; an action reads back unchanged iff it has a path, and one without comes back with path "/" |
| Api.DecodeGrpcAction | api/src/lib.rs:279-292 | an omitted service becomes `None`; a given service is kept |
| Api.EncodeGrpcAction | api/src/lib.rs:279-292 | the service is skipped iff it is `None`, and every action reads back unchanged |
| ApiApplication.SourceCount | api/src/application.rs:113-122 | a `filesFrom` item sets at most three sources, and none iff it is the default item |
| ApiApplication.FilesFromNamesOneSource | api/src/application.rs:35-39 | the documented rule for a `filesFrom` item rejects the default item and accepts only an item that names a source |
| ApiApplication.FilesFromRule | api/src/application.rs:35-39 | the documented rule (a config map, a secret or an emptyDir) holds exactly for the three single-source items |
| Common.StripTypeKeys | controller/src/resource_creator/mod.rs:52-56 | an object loses exactly "kind", "apiVersion" and "metadata" and keeps every other value; a non-object is unchanged |
| Common.StripIsIdempotent | controller/src/resource_creator/mod.rs:52-56 | stripping twice is stripping once |
| Common.ToDynamicObject | controller/src/resource_creator/mod.rs:40-59 | fails with `ConfigError` iff serialization fails; otherwise carries the resource's type metadata and metadata, none of the type keys, and every other serialized field |
| Common.AppLabels | controller/src/resource_creator/mod.rs:23-26 | exactly the two labels: the application name and managed-by "yakup" |
| Common.AppLabelsIdentifyApp | controller/src/resource_creator/mod.rs:23-26 | two applications get the same labels iff their names agree |
| Common.AppNamespace | controller/src/resource_creator/mod.rs:22 | the application's namespace, or "default" when it has none |
| DeploymentCreator.DeploymentFor | controller/src/resource_creator/deployment.rs:18-53 | the name and namespace, one replica, a selector and pod labels from the application labels, and one container named after the application running its image |
| DeploymentCreator.SelectorMatchesOwnPods | controller/src/resource_creator/deployment.rs:32-40 | the selector selects the Deployment's own pods, and selects another application's pods iff the names agree |
| DeploymentCreator.Process | controller/src/resource_creator/deployment.rs:17-57 | `ConfigError` iff the Deployment does not serialize; otherwise one `CreateOrUpdate` of an apps/v1 Deployment with the application's name and namespace, whose object is the conversion of `DeploymentFor` of the application |
| ServiceCreator.ServicePortNumber | controller/src/resource_creator/service.rs:51-55 | HTTP ports are exposed on 80, metrics on 9090, TCP on their own number |
| ServiceCreator.GeneratePorts | controller/src/resource_creator/service.rs:45-69 | `None` iff the application has no ports; otherwise one service port per port, in order, named and targeting the port's name |
| ServiceCreator.PortNamesFollowKinds | controller/src/resource_creator/service.rs:56-60 | two service ports share a name iff their ports share a kind |
| ServiceCreator.ServiceFor | controller/src/resource_creator/service.rs:30-38 | the given metadata, a selector of the given labels, and the generated ports |
| ServiceCreator.Process | controller/src/resource_creator/service.rs:16-43 | one operation with the given metadata for a v1 Service; it is `DeleteIfExists` iff the application has no ports; `ConfigError` iff the Service of that branch does not serialize; its object is the conversion of the metadata-only Service without ports, and of `ServiceFor` the ports, metadata and labels otherwise |
| ServiceAccountCreator.ServiceAccountFor | controller/src/resource_creator/service_account.rs:20-24 | the ServiceAccount has exactly the given metadata and mounts its token |
| ServiceAccountCreator.Process | controller/src/resource_creator/service_account.rs:15-29 | one `CreateOrUpdate` of a v1 ServiceAccount with exactly the given metadata, whose object is the conversion of `ServiceAccountFor` the metadata; `ConfigError` iff it does not serialize |
| ServiceAccountCreator.OnlyMetadataMatters | controller/src/resource_creator/service_account.rs:15-19 | the result depends on the metadata alone, not on the application or the labels |
| ResourceCreator.SharedMeta | controller/src/resource_creator/mod.rs:27-32 | the name, the namespace (or "default") and the application labels, nothing else |
| ResourceCreator.Process | controller/src/resource_creator/mod.rs:20-38 | succeeds iff both creators do; then exactly the Deployment operation followed by the Service operation, all named and namespaced after the application |
| ResourceCreator.ProcessedObjects | controller/src/resource_creator/mod.rs:34-37 | the first operation creates the Deployment; the second targets the Service and is a deletion iff there are no ports |
| IngressCreator.IngressName | controller/src/resource_creator/ingress.rs:129 | the name is the application name, "-", then the zone name |
| IngressCreator.IngressNameIsInjective | controller/src/resource_creator/ingress.rs:27 | for one application, two zones give the same Ingress name iff they are the same zone |
| IngressCreator.RuleHost | controller/src/resource_creator/ingress.rs:108 | a host without "{appname}" is used as it is |
| IngressCreator.RuleHostSubstitutes | controller/src/resource_creator/ingress.rs:108 | in a host `before + "{appname}" + after` where `before` has no placeholder, the placeholder becomes the application's name and the replacement goes on in `after` |
| IngressCreator.LeadingPlaceholder | controller/src/resource_creator/ingress.rs:108 | a host "{appname}" followed by text without "{" becomes the application's name followed by that text |
| IngressCreator.GoldenHost | controller/tests/golden_file_test.rs:38-40 | the golden zone's host "{appname}.example.com" becomes the application's name followed by ".example.com" |
| IngressCreator.ZoneLabelled | controller/src/resource_creator/ingress.rs:130-140 | the given labels (or none) plus the zone label set to the zone name, other labels unchanged |
| IngressCreator.GenerateIngress | controller/src/resource_creator/ingress.rs:98-172 | "zone not found" iff the entry's zone is not cached; otherwise name, labels, TLS annotation, class, one rule for the templated host with one path per entry path in order, and TLS exactly for a TLS zone |
| IngressCreator.ServedEntries | controller/src/resource_creator/ingress.rs:83-94 | an entry is kept iff its zone is cached |
| IngressCreator.ServedEntriesAppend | controller/src/resource_creator/ingress.rs:83-94 | filtering distributes over concatenation |
| IngressCreator.GenerateIngresses | controller/src/resource_creator/ingress.rs:77-96 | at most one Ingress per entry |
| IngressCreator.GenerateIngressesServed | controller/src/resource_creator/ingress.rs:77-96 | the i-th Ingress is the one `generate_ingress` makes for the i-th entry whose zone is cached; failed entries are dropped |
| IngressCreator.GenerateIngressesAppend | controller/src/resource_creator/ingress.rs:29-34 | generating distributes over concatenation, as `flat_map` does |
| IngressCreator.PortEntries | controller/src/resource_creator/ingress.rs:29-34 | every ingress entry of every port is among the entries |
| IngressCreator.AllIngresses | controller/src/resource_creator/ingress.rs:29-34 | at most one Ingress per ingress entry of all ports, and none when no port has an entry |
| IngressCreator.AllIngressesAreServedEntries | controller/src/resource_creator/ingress.rs:29-41 | the Ingresses are those of the served entries of all ports, one each, in order; skipping ports without entries changes nothing |
| IngressCreator.Candidates | controller/src/resource_creator/ingress.rs:26-27 | the candidate names are exactly "<app>-<zone>" for the cached zones |
| IngressCreator.ZoneLabels | controller/src/resource_creator/ingress.rs:35-40 | a value is collected iff some Ingress carries it as its zone label |
| IngressCreator.PruneAsWritten | controller/src/resource_creator/ingress.rs:35-40 | the loop only removes candidates, and keeps every candidate that is no zone label |
| IngressCreator.RemoveZoneLabels | controller/src/resource_creator/ingress.rs:35-40 | the loop as written computes `PruneAsWritten` |
| IngressCreator.RemoveGeneratedNames | controller/src/resource_creator/ingress.rs:35-40 | the corrected loop computes `PruneIntended` |
| IngressCreator.CreateOperations | controller/src/resource_creator/ingress.rs:43-59 | only `CreateOrUpdate` operations, at most one per Ingress, each the conversion of one of them; failed conversions are dropped |
| IngressCreator.ConvertCreates | controller/src/resource_creator/ingress.rs:43-59 | the loop's result equals `CreateOperations` |
| IngressCreator.DeleteOpsAdd | controller/src/resource_creator/ingress.rs:61-72 | adding a convertible name adds exactly its delete operation |
| IngressCreator.DeleteResource | controller/src/resource_creator/ingress.rs:62-69 | the Ingress to delete is a networking.k8s.io/v1 Ingress with the given name and namespace, no labels, no annotations and no spec |
| IngressCreator.DeleteOps | controller/src/resource_creator/ingress.rs:61-72 | every operation deletes an Ingress whose name is one of the names, in the given namespace |
| IngressCreator.AppendDeleteKeepsOps | controller/src/resource_creator/ingress.rs:70-71 | pushing one more delete keeps the creates in front and adds exactly that name's operation |
| IngressCreator.AppendDeletes | controller/src/resource_creator/ingress.rs:61-74 | fails with `ConfigError` iff some name does not convert; otherwise the creates stay first, followed by exactly one delete operation per name |
| IngressCreator.Process | controller/src/resource_creator/ingress.rs:21-75 | the creates for the generated Ingresses, then one delete per name left by the corrected pruning; `ConfigError` iff some delete fails to convert |
| IngressCreator.ServedZones | controller/src/resource_creator/ingress.rs:29-34 | the served zones are cached zones |
| IngressCreator.GeneratedNamesAndLabels | controller/src/resource_creator/ingress.rs:129-140 | in a cache keyed by name, each generated Ingress is named "<app>-<zone>" and labelled with its zone's name |
| IngressCreator.PruningAsWrittenRemovesNothing | controller/src/resource_creator/ingress.rs:26-40 | as written, no candidate is ever removed when no zone is named like an Ingress |
| IngressCreator.CreatedIngressIsAlsoDeleted | controller/src/resource_creator/ingress.rs:35-72 | as written, every generated Ingress is also scheduled for deletion |
| IngressCreator.GoldenIngressIsDeleted | controller/src/resource_creator/ingress.rs:35-40 | for the application "test-app" with one HTTP port in zone "public", the one Ingress "test-app-public" is created and still pruned |
| IngressCreator.IngressNames | controller/src/resource_creator/ingress.rs:129 | every generated name is collected |
| IngressCreator.PruneIntended | controller/src/resource_creator/ingress.rs:26-40 | the corrected pruning removes candidates only, and never keeps a generated Ingress's name |
| IngressCreator.GeneratedNamesAreServed | controller/src/resource_creator/ingress.rs:26-34 | every generated Ingress is named "<app>-<zone>" for a zone some port uses |
| IngressCreator.ServedZonesAreGenerated | controller/src/resource_creator/ingress.rs:26-34 | every zone some port uses gets its Ingress "<app>-<zone>" |
| IngressCreator.IntendedPruningDeletesUnservedZones | controller/src/resource_creator/ingress.rs:26-40 | corrected, exactly the Ingresses of cached zones that no port uses are pruned |
| Models.Display | controller/src/models.rs:24-31 | an operation prints as its variant name, "CreateOrUpdate" or "DeleteIfExists" |
| Models.DisplayShowsVariantOnly | controller/src/models.rs:24-31 | two operations print alike iff they are the same variant |
| Models.GvkOf | controller/src/models.rs:47-55 | a group/version/kind exactly when the object has type metadata, taken from it |
| Models.DynamicApi | controller/src/models.rs:154-168 | all namespaces iff cluster scope or `all`; the given namespace iff namespaced and one is given; the default namespace otherwise |
| Models.Target | controller/src/models.rs:62-72 | the object is addressable iff discovery runs, it has type metadata, and the kind is discovered; the key carries its name and kind |
| Models.CreateOrUpdateSpec | controller/src/models.rs:57-107 | a failure leaves the store as it was; nothing is ever removed; only the target key can change, and a changed store holds the object's data and type at that key |
| Models.DeleteIfExistsSpec | controller/src/models.rs:109-151 | a failure leaves the store as it was, and a changed store is the old one without the target key |
| Models.ApplySpec | controller/src/models.rs:34-45 | success returns the operation's own object; a failure changes nothing; a delete never adds an object and a create-or-update never removes one |
| Models.ApplyOutcome | controller/src/models.rs:34-45 | a successful apply returns the operation's own object, whose kind resolves; a failed one leaves the store unchanged |
| Models.NoRequestWithoutTarget | controller/src/models.rs:62-72 | a failure of discovery, kind or resolution happens before any request, whatever the store holds |
| Models.ExistingObjectIsReplaced | controller/src/models.rs:74-86 | an existing object is replaced by the new one carrying the existing resource version |
| Models.GetOutcomeDecides | controller/src/models.rs:87-105 | after a 404/410 the object is created; other API errors fail with nothing changed; a non-API error succeeds with nothing changed |
| Models.CreateOrUpdateConverges | controller/src/models.rs:57-107 | on a fault-free server the object is stored with its data, type and name, and applying it again changes nothing |
| Models.DeleteIfExistsOutcome | controller/src/models.rs:109-151 | on a fault-free server the object is gone; 404/410 counts as success; other API errors fail; non-API errors succeed; failures change nothing |
| Models.ApiServer.constructor | controller/src/models.rs:62-65 | the server starts with the given discovery, default namespace, faults and objects |
| Models.ApiServer.Get | controller/src/models.rs:75 | the stored object, the injected fault, or 404 |
| Models.ApiServer.Create | controller/src/models.rs:91 | stores a missing object, 409 for an existing one, or the injected fault |
| Models.ApiServer.Replace | controller/src/models.rs:81 | replaces an existing object, 404 for a missing one, or the injected fault |
| Models.ApiServer.Delete | controller/src/models.rs:127-129 | removes an existing object, 404 for a missing one, or the injected fault |
| Models.ResolveTarget | controller/src/models.rs:62-72 | returns exactly `Target` of the server's state |
| Models.ApplyCreateOrUpdate | controller/src/models.rs:57-107 | result and new store are those of `CreateOrUpdateSpec` |
| Models.ApplyDeleteIfExists | controller/src/models.rs:109-151 | result and new store are those of `DeleteIfExistsSpec` |
| Models.Apply | controller/src/models.rs:34-45 | result and new store are those of `ApplySpec` |
| Controller.Context.constructor | controller/src/lib.rs:41-44 | an empty zone cache and the given server |
| Controller.CacheZone | controller/src/lib.rs:98-101 | the zone is stored under its name, replacing an earlier one; every other entry is kept |
| Controller.CachingKeepsZonesKeyedByName | controller/src/lib.rs:99-101 | a cache filled by `reconcile_zones` keeps each zone under its own name |
| Controller.ReconcileZones | controller/src/lib.rs:95-103 | the cache becomes `CacheZone` of the old cache, and the zone is requeued after 3600 seconds |
| Controller.ApplyOps | controller/src/lib.rs:119-138 | a failing first operation stops the loop with `ApplyOperations` and nothing changed; only deletes never add an object and only create-or-updates never remove one |
| Controller.ApplyOpsAppend | controller/src/lib.rs:119-138 | applying a concatenation applies the first part, then, unless it failed, the rest |
| Controller.ApplyOpsNeverGvkLookup | controller/src/lib.rs:120-136 | `gvk` never fails after a successful apply, so every failure is `ApplyOperations` |
| Controller.ReconcileAppsSpec | controller/src/lib.rs:106-142 | a processing error is `ResourceProcessing` with nothing changed; success is a 3600-second requeue; the only errors are `ResourceProcessing` and `ApplyOperations` |
| Controller.ReconcileAppsOutcome | controller/src/lib.rs:106-142 | a processing error is `ResourceProcessing` and applies nothing; otherwise the result is a 3600-second requeue iff every operation applied, and `ApplyOperations` otherwise |
| Controller.AppliesWithoutFaults | controller/src/lib.rs:120-134 | on a fault-free server an operation whose kind is served applies, and its object's kind is found again |
| Controller.ReconcileSucceedsOnHealthyServer | controller/src/lib.rs:106-142 | on a fault-free server that serves Deployments and Services, an application whose objects serialize is reconciled |
| Controller.ReconcileApps | controller/src/lib.rs:106-142 | the loop's result and the server's new store are those of `ReconcileAppsSpec` |
| Controller.ErrorPolicyApps | controller/src/lib.rs:144-151 | every error is retried after 5 seconds |
| Controller.ErrorPolicyZones | controller/src/lib.rs:153-160 | every error is retried after 5 seconds |
| Strings.ReplaceAll | controller/src/resource_creator/ingress.rs:108 | a string without the pattern is unchanged |
| Strings.ReplaceBySelf | controller/src/resource_creator/ingress.rs:108 | replacing a pattern by itself changes nothing |
| Strings.ReplaceAtStart | controller/src/resource_creator/ingress.rs:108 | unfolding step of `ReplaceAll`: an occurrence at the start is replaced and the scan goes on after it |
| Strings.ReplaceSkipsFirst | controller/src/resource_creator/ingress.rs:108 | unfolding step of `ReplaceAll`: a string that does not start with the pattern keeps its first character |
| Strings.MissingFirstCharNotContained | controller/src/resource_creator/ingress.rs:108 | a string lacking the pattern's first character does not contain the pattern |
| Strings.NoOccurrenceBeforePattern | controller/src/resource_creator/ingress.rs:108 | for a pattern whose first character is unique in it, no occurrence starts inside a placeholder-free stretch and runs into the next occurrence |
| Strings.ReplaceSkipsFirstBeforePattern | controller/src/resource_creator/ingress.rs:108 | before the first occurrence of such a pattern, the scan keeps one character and moves on |
| Strings.ReplaceFirstOccurrence | controller/src/resource_creator/ingress.rs:108 | for such a pattern, the first occurrence after a stretch without one is replaced and the replacement goes on after it |
| Strings.ToLower | api/src/lib.rs:208 | the same length, each character lower-cased |
| Strings.Join | dagger/src/main/__init__.py:100 | joining no parts gives "", joining one part gives that part |
| Strings.JoinStarts | dagger/src/main/__init__.py:100 | a join starts with its first part |
| Strings.JoinEnds | dagger/src/main/__init__.py:100 | a join ends with its last part |
| Pipeline.TargetOf | dagger/src/main/__init__.py:11-14 | amd64 maps to x86_64-unknown-linux-musl and arm64 maps to aarch64-unknown-linux-musl; there is a target iff the platform is mapped |
| Pipeline.TargetArgs | dagger/src/main/__init__.py:36 | no arguments iff the target is absent or empty; otherwise "--target" and the target |
| Pipeline.ExecsAppend | dagger/src/main/__init__.py:37-44 | the commands of chained steps are those of each part, in order |
| Pipeline.CookCommandShape | dagger/src/main/__init__.py:42-44 | each cook pass runs `cargo chef cook` on the recipe for release, ending with the target arguments |
| Pipeline.Cook | dagger/src/main/__init__.py:32-45 | cooking keeps the toolchain image's platform, base and steps, and adds six steps after them |
| Pipeline.CookStepsRunPasses | dagger/src/main/__init__.py:39-44 | the six added steps run exactly the tests, clippy and plain passes |
| Pipeline.CookPasses | dagger/src/main/__init__.py:32-45 | cooking adds exactly the tests, clippy and plain passes, in that order |
| Pipeline.Test | dagger/src/main/__init__.py:47-55 | testing keeps the cooked container's steps and adds two after them, on the same platform and base |
| Pipeline.TestRunsTestsBeforeClippy | dagger/src/main/__init__.py:47-55 | after cooking, nextest runs and then clippy denying warnings, both with the target arguments |
| Pipeline.Build | dagger/src/main/__init__.py:57-66 | building adds one step to the cooked container, and the file is taken from where cargo writes the binary for the target arguments used |
| Pipeline.BuildCompilesController | dagger/src/main/__init__.py:58-64 | building runs exactly the cook passes and then `cargo build --release --bin controller` with the target arguments |
| Pipeline.BuildPathAsWritten | dagger/src/main/__init__.py:65 | as written, the path is under the given target's directory, or under "target/None/" without a target |
| Pipeline.BuildPathAsWrittenMissesUntargetedBuild | dagger/src/main/__init__.py:65 | as written, the file path matches where cargo puts the binary iff a target is given; without one it is "target/None/release/controller" |
| Pipeline.BuildPath | dagger/src/main/__init__.py:61-65 | corrected, the path is where cargo puts the binary, and agrees with the written path whenever a target is given |
| Pipeline.Docker | dagger/src/main/__init__.py:68-80 | fails with `UnmappedPlatform` iff a platform is given that has no target; otherwise a container for the platform on the static base with three steps, copying the binary built for the platform's target |
| Pipeline.DockerTargets | dagger/src/main/__init__.py:72-73 | a mapped platform's image builds with `--target` and its triple and copies the binary from that target's directory; without a platform the image builds untargeted and, with the corrected path, copies from "target/release/" |
| Pipeline.Contents | dagger/src/main/__init__.py:90-95 | ".j2" files are rendered with the image and version; other files are taken as they are |
| Pipeline.Document | dagger/src/main/__init__.py:96-99 | every document starts with "---"; one that already does is unchanged, any other gets "---\n" in front |
| Pipeline.DocumentIsIdempotent | dagger/src/main/__init__.py:96-99 | making a document of a document changes nothing |
| Pipeline.ManifestEnds | dagger/src/main/__init__.py:100 | a join of documents starts with "---" and ends with the last document |
| Pipeline.CollectDocuments | dagger/src/main/__init__.py:89-99 | one document per file, in order, each the file's contents (rendered for a ".j2" file) as a document |
| Pipeline.AssembleManifests | dagger/src/main/__init__.py:83-100 | one document per file in order, joined with "\n"; a non-empty result starts with "---" and ends with the last document |
| Pipeline.Variants | dagger/src/main/__init__.py:107-110 | one image per published platform, amd64 then arm64, each the successful `docker` result for it |
| Pipeline.BuildVariants | dagger/src/main/__init__.py:114-116 | the inner loop builds `Variants`, calling `docker` for amd64 then arm64 |
| Pipeline.Publish | dagger/src/main/__init__.py:103-119 | two publications, ":latest" then ":<version>", each of exactly the `Variants` images, building four images in the order amd64, arm64, amd64, arm64 |

## Left out

- I/O and the runtime: the kube client, the watchers and `main` are left out. The zone cache's `RwLock`, async scheduling and tracing are left out too.
- Platform code: the dagger engine and the Jinja engine are parameters or recorded steps. Rust().rust() is the parameter `rust` (dagger/src/main/rust.py is not part of this model).
- Serialization: `serde_json::to_value` is the parameter `ser`. The JSON field names (camelCase, lowercase port kinds) are not modelled.
- Host id: MD5 and Crockford base32 of the host are the parameter `hostId`.
- Kinds: `GroupVersionKind::try_from` on type metadata is taken as total. `name_any` is taken as the name, since every object the creators build has one.
- Models.ApiServer: the API server is an in-memory store with injected faults. Admission, resource versions checked on replace, and deletion in the background (`Either::Left`) are not modelled.
- Common.ToDynamicObject: it is a function returning a new object rather than an update of one. The name `DynamicObject::new` sets is overwritten by the metadata in the source as well.
- ResourceCreator.Process: it takes only the application, as mod.rs declares, although lib.rs passes the zone cache.
- IngressCreator.Process: the `HashSet` iteration order of the deletes is not fixed by the source, so the model states the deletes as a set.
- Pipeline.AssembleManifests: template errors are left out, since rendering is a total function parameter. The directory listing order is the given sequence.
- Pipeline.Publish: it returns the publication requests, not the digest strings the registry answers with. Concurrency (`asyncio.gather`) is left out.
- ApiApplication: it models only the types that differ from api/src/lib.rs; the shared types are modelled once, in `Api`.
- `ResourceRequirements`, `ApplicationStatus` and the schema attributes are left out, since no core function reads them.
- Probe actions are not turned into Kubernetes probes, since no core function does it.
- Integer widths: a port is a `u16` (`Api.U16`). A TCP service port is `port as i32`, which cannot overflow from a `u16`, so `ServicePortNumber` is an unbounded integer.

## Findings

| source | as written | input that shows it | evidently intended | confidence | as-written member | corrected member |
|---|---|---|---|---|---|---|
| controller/src/resource_creator/ingress.rs:35-40 | the Ingresses to prune are named "<app>-<zone>", but the loop removes the bare zone label "<zone>" from that set, so nothing is removed | application "test-app" with an HTTP port whose ingress is zone "public", and the cached zone "public": "test-app-public" is created and then scheduled for deletion in the same run | remove the generated Ingress's own name, so that only Ingresses of unused zones are deleted | high (not executed) | IngressCreator.GoldenIngressIsDeleted | IngressCreator.IntendedPruningDeletesUnservedZones |
| dagger/src/main/__init__.py:65 | the binary is taken from f"target/{target}/release/controller", which for `target=None` is "target/None/release/controller", while cargo without `--target` writes "target/release/controller" | `target=None`: `build(source)` called without a target, or `docker(source)` called without a platform | take the binary from "target/release/controller" when no target is given | high (not executed) | Pipeline.BuildPathAsWrittenMissesUntargetedBuild | Pipeline.BuildPath |
