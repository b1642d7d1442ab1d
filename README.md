# Object synthesis of the ClickHouse operator, in Dafny

This project models the `Creator` of the ClickHouse operator
(`pkg/models/create_objects.go`). Given a ClickHouse installation, the operator's
configuration and its version string, the `Creator` synthesizes the Kubernetes objects that
run the installation:

- the services: one installation-wide load-balanced service, then one headless service per
  replica;
- the config maps: a common bundle and a common-users bundle, then one macros bundle per
  replica;
- the stateful sets: one per replica. Each set's pod template is resolved from the
  installation's pod-template catalog. Each container gets the three bundle mounts. The set
  gets one claim per mount that names a declared volume-claim template. The first claim
  template is also offered as the implicit data volume of the ClickHouse container.

Layout:

- `wrappers.dfy`: `Option` and `Result`.
- `kube.dfy`: the Kubernetes records the engine builds, cut down to the fields it sets.
- `chi.dfy`: the installation, its replicas (already flattened in walk order), the two
  template catalogs, the extra configuration files, and the collaborators the engine calls.
  The collaborators are the naming functions and the XML generators, modelled as records of
  functions.
- `constants.dfy`: label keys, ports, paths and file names.
- `index.dfy`: the name-to-template indices.
- `sections.dfy`: how bundle files are assembled from generated and extra content.
- `create_objects.dfy`: the `Creator` class and everything it builds, with the properties
  proved about them.

The `Creator` is a class whose two index fields are filled by its constructor. Stateful sets
are values threaded through the setup methods: they go in and come out updated. Every loop
of the source is a `while` loop proved against a specification function. The properties are
lemmas about those functions.

## Model

| member | source | states |
|---|---|---|
| TemplateIndex.LastDeclared | pkg/models/create_objects.go:586-593 | The position of the last catalog entry with a given name, or -1; no later entry has that name |
| TemplateIndex.Index | pkg/models/create_objects.go:586-593 | Every indexed template is in the catalog, under its own name |
| TemplateIndex.IndexLookup | pkg/models/create_objects.go:586-615 | A name is indexed exactly when some catalog entry declares it, and then the entry found is the last one of that name |
| Models.Creator.constructor | pkg/models/create_objects.go:39-49 | Keeps its inputs and leaves both indices equal to the index of their catalog |
| Models.Creator.CreatePodTemplatesIndex | pkg/models/create_objects.go:602-609 | The pod-template index becomes the index of the pod-template catalog |
| Models.Creator.CreateVolumeClaimTemplatesIndex | pkg/models/create_objects.go:586-593 | The claim-template index becomes the index of the claim-template catalog |
| Models.Creator.GetPodTemplate | pkg/models/create_objects.go:611-615 | Finds a pod template exactly when the name is declared, and then the last entry of that name |
| Models.Creator.GetVolumeClaimTemplate | pkg/models/create_objects.go:595-599 | Finds a claim template exactly when the name is declared, and then the last entry of that name |
| ConfigSections.IncludeNonEmpty | pkg/models/create_objects.go:85-88 | A file is present exactly when its content is non-empty; other files are untouched; non-emptiness is kept |
| ConfigSections.WithExtras | pkg/models/create_objects.go:89-92 | Non-empty extras override generated files, empty extras change nothing, and every file stays non-empty |
| ConfigSections.IncludeExtras | pkg/models/create_objects.go:89-92 | The extras loop, in any key order, yields the generated files overridden by the non-empty extras |
| Models.Creator.GeneratedCommonSections | pkg/models/create_objects.go:84-88 | The common bundle holds remote servers, ZooKeeper, settings and listen, each exactly when rendered, and nothing else |
| Models.Creator.GeneratedUsersSections | pkg/models/create_objects.go:98-101 | The users bundle holds users, quotas and profiles, each exactly when rendered, and nothing else |
| Models.Creator.GeneratedPodSections | pkg/models/create_objects.go:158-159 | A replica's bundle holds its macros exactly when rendered, and nothing else |
| Models.Creator.CommonConfigMap | pkg/models/create_objects.go:118-132 | The common config map: the installation's common name, namespace and labels, owned by the operator. It holds the generated common files overridden by non-empty extras, none empty |
| Models.Creator.CommonUsersConfigMap | pkg/models/create_objects.go:134-149 | The common-users config map: the installation's users name, namespace and labels, owned by the operator. It holds the generated users files overridden by non-empty extras, none empty |
| Models.Creator.CreateConfigMapObjectsCommon | pkg/models/create_objects.go:76-152 | Exactly two config maps: the common one, then the common-users one |
| Models.Creator.PodConfigMap | pkg/models/create_objects.go:165-179 | A replica's config map carries its pod name and namespace, is owned by the operator, holds macros plus extras, and has no empty file |
| Models.Creator.CreateConfigMapObjectsPod | pkg/models/create_objects.go:154-186 | One config map per replica, in walk order |
| Models.Creator.CreateConfigMapObjects | pkg/models/create_objects.go:62-74 | 2 + R config maps: exactly the common and common-users maps first, then each replica's map in order; all owned, none with an empty file |
| Models.Creator.ServiceObjectChi | pkg/models/create_objects.go:234-263 | Load-balanced; HTTP and client ports; selects by the installation label; owned by the operator |
| Models.Creator.ServiceObjectPod | pkg/models/create_objects.go:265-304 | Headless and cluster-internal; HTTP, client and inter-server ports; selects the pods of the replica's stateful set by name |
| Models.Creator.CreateServiceObjectsCommon | pkg/models/create_objects.go:205-212 | Exactly one service, the installation-wide one under the installation's service name |
| Models.Creator.CreateServiceObjectsPod | pkg/models/create_objects.go:214-232 | One service per replica, in walk order |
| Models.Creator.CreateServiceObjects | pkg/models/create_objects.go:189-203 | 1 + R services: the installation-wide one first, then the replicas' in order |
| Models.IsChopGeneratedObject | pkg/models/create_objects.go:306-325 | An object counts as generated exactly when it carries the operator label; never without labels |
| Models.CreateVolumeMountObject | pkg/models/create_objects.go:577-583 | The mount has the given volume name and path |
| Models.CreateVolumeObjectConfigMap | pkg/models/create_objects.go:563-575 | A volume named after the config map it is backed by |
| Models.CreateDefaultPodTemplate | pkg/models/create_objects.go:523-561 | One container with the three canonical ports, a /ping readiness probe on the HTTP port after 10 s every 10 s, no mounts and no volumes |
| Models.CopyPodTemplateFrom | pkg/models/create_objects.go:506-509 | Only the pod template's name and spec change, and they are taken from the source template |
| Models.AppendVolumeClaimTemplateFrom | pkg/models/create_objects.go:511-521 | Exactly one claim, with the template's name and spec, is appended; nothing else changes |
| Models.Creator.ResolvedPodTemplate | pkg/models/create_objects.go:410-419 | A declared template name yields the last entry of that name; any other name yields the default template named after the stateful set |
| Models.Creator.PodTemplateFor | pkg/models/create_objects.go:389-442 | Pod labels; the resolved template's name; every container keeps its mounts and gets the three bundle mounts after them; the three bundle volumes come after the template's volumes |
| Models.Creator.SetupStatefulSetPodTemplate | pkg/models/create_objects.go:389-442 | The container loop yields the stateful set with exactly that pod template and nothing else changed |
| Models.Creator.ClaimsAreCatalogCopies | pkg/models/create_objects.go:449-458 | Every claim attached for mounts is a copy of the last declared template of its name, and there are at most as many claims as mounts |
| Models.Creator.ContainerClaimsAreCatalogCopies | pkg/models/create_objects.go:449-458 | The same holds for the claims of all containers |
| Models.Creator.MountGetsClaim | pkg/models/create_objects.go:452-456 | A mount gets a claim of a given name exactly when it uses that name and the name is declared |
| Models.Creator.MountsGetClaim | pkg/models/create_objects.go:451-457 | A list of mounts gets a claim of a given name exactly when some mount uses the name and the name is declared |
| Models.Creator.ContainersGetClaim | pkg/models/create_objects.go:449-458 | The containers get a claim of a given name exactly when some container mounts the name and the name is declared |
| Models.Creator.NoClaimsForUndeclaredMounts | pkg/models/create_objects.go:449-458 | Mounts that name no declared claim template get no claims |
| Models.Creator.AttachClaimsForMounts | pkg/models/create_objects.go:451-457 | The inner loop appends exactly the claims of the mounts, in order |
| Models.Creator.AttachMountedClaims | pkg/models/create_objects.go:449-458 | The nested loops append exactly the claims of all containers' mounts, in order |
| Models.Creator.DefaultVolumeClaimTemplate | pkg/models/create_objects.go:461-472 | A template is offered exactly when the catalog is non-empty; it is the last declared entry named like the first entry |
| Models.WithDefaultDataVolume | pkg/models/create_objects.go:466-501 | Nothing to do without an offered template; it fails exactly when a template is offered and there is no ClickHouse container |
| Models.SetupDefaultDataVolume | pkg/models/create_objects.go:466-501 | The two early-return loops and the append yield the implicit data-volume step |
| Models.DefaultDataVolumeRule | pkg/models/create_objects.go:466-501 | Only the ClickHouse container and the claims change. A mount at the data directory is added exactly when the container neither uses the template by name nor mounts anything there. The claim is added when that mount is added and no claim of its name exists |
| Models.DefaultDataVolumeBacked | pkg/models/create_objects.go:461-501 | Afterwards the ClickHouse container uses the template by name or has something at the data directory, and an added mount is backed by a claim of its name |
| Models.DefaultDataVolumeIdempotent | pkg/models/create_objects.go:461-501 | Applying the implicit data-volume step twice is applying it once |
| Models.AsWrittenDataMountUnbacked | pkg/models/create_objects.go:493-501 | As written, the implicit mount can name a volume that no claim and no pod volume provides |
| Models.Creator.WithVolumeClaims | pkg/models/create_objects.go:444-504 | The claim setup fails exactly when a template is offered and the pod has no container |
| Models.Creator.WithVolumeClaimsFrame | pkg/models/create_objects.go:444-504 | Claim setup changes nothing but the claims and the ClickHouse container, which gets at most one data-directory mount of the offered template |
| Models.Creator.WithVolumeClaimsClaims | pkg/models/create_objects.go:444-504 | After setup the claims are the mounted claims in order, possibly followed by the offered template's claim |
| Models.Creator.SetupStatefulSetVolumeClaimTemplates | pkg/models/create_objects.go:444-504 | The claim-setup loops yield exactly the specified claim setup |
| Models.Creator.CreateStatefulSetObject | pkg/models/create_objects.go:345-383 | Builds the replica's stateful set as specified: frame, pod template, then claims |
| Models.Creator.StatefulSetForFrame | pkg/models/create_objects.go:345-383 | Fails exactly when a template is offered and the resolved pod has no container. Otherwise: named after the replica, one pod, the replica's service, a selector that matches its pod labels, and template volumes followed by the bundle volumes |
| Models.Creator.StatefulSetForContainers | pkg/models/create_objects.go:389-501 | Every container is the resolved one plus the bundle mounts; only the ClickHouse container may also get one data-directory mount of the first template |
| Models.Creator.StatefulSetForClaims | pkg/models/create_objects.go:444-504 | The claims are those of the mounts, possibly followed by the offered template's claim |
| Models.Creator.StatefulSetClaimsAreCatalogCopies | pkg/models/create_objects.go:444-521 | Every claim of a stateful set is a copy of the last declared template of its name |
| Models.Creator.UndeclaredTemplateFallsBack | pkg/models/create_objects.go:415-419 | A replica naming no declared template always gets a stateful set running the default ClickHouse container, with the bundle mounts and volumes |
| Models.Creator.ExplicitDataMountKept | pkg/models/create_objects.go:466-477 | If the ClickHouse container already mounts the offered template by name, no container changes and the claim comes from that mount |
| Models.Creator.ExplicitDataVolume | pkg/models/create_objects.go:466-477 | The same for a replica whose resolved template mounts the first claim template explicitly |
| Models.Creator.ImplicitDataMountAdded | pkg/models/create_objects.go:479-501 | With no other claims and the template not yet at home, the offered template is mounted at the data directory and its claim is the only one |
| Models.Creator.ImplicitDataVolume | pkg/models/create_objects.go:479-501 | A default-template replica gets the first claim template mounted at the data directory after the bundle mounts, with its claim as the only claim |
| Models.CollectSpec | pkg/models/create_objects.go:328-343 | Collecting per-replica results succeeds exactly when all succeed, keeping order and count; otherwise it reports the first failure |
| Models.Creator.StatefulSetsSpec | pkg/models/create_objects.go:328-343 | The stateful sets are one per replica, in walk order; synthesis fails exactly when some replica's set does, with the first failure |
| Models.Creator.CreateStatefulSetObjects | pkg/models/create_objects.go:328-343 | The loop over the replicas yields the collected per-replica stateful sets |
| Models.Creator.ReplicaServiceSelection | pkg/models/create_objects.go:265-304 | A replica's service selects a pod exactly when the pod belongs to a stateful set of the same name |
| Models.Creator.ChiServiceSelection | pkg/models/create_objects.go:234-263 | The installation-wide service selects a replica's pods exactly when the replica belongs to the installation |
| Models.Creator.ReplicaObjectsAgree | pkg/models/create_objects.go:345-442 | In a well-formed installation, the replica's set is owned by the operator and governed by its service. Both services select its pods, and its last three volumes are the installation's two config maps and the replica's own |
| Models.Creator.CreateObjects | pkg/models/create_objects.go:52-59 | 1 + R services, 2 + R config maps and R stateful sets, each list exactly the one specified above, in the same order; fails exactly when the stateful sets do |

## Left out

- Logging (`glog`) is not modelled: it has no effect on the objects.
- The XML generators (`generateRemoteServersConfig`, …, `generateHostMacros`) and the naming
  functions (`CreateStatefulSetName`, `CreateConfigMapPodName`, …) are not part of this
  model. They are parameters of the `Creator`: arbitrary total functions.
- `util.IncludeNonEmpty` is not part of this model's sources. It is modelled as "store the
  content under the file name when it is non-empty", as its name and its uses say.
- `WalkReplicas` is not part of this model. An installation carries its replicas as one
  sequence, already in walk order.
- The values of the label keys, port numbers, paths, file names, the headless cluster IP and
  the default image are not defined in `pkg/models/create_objects.go`. `constants.dfy` uses
  the values of the upstream operator. The proofs rely only on the labels and paths being
  pairwise distinct.
- Go maps iterate in an unspecified order. The extras loop picks its keys in any order, and
  the result is proved independent of that order. Label maps and data maps are Dafny maps.
- `DeepCopy` and pointer aliasing are not modelled. Templates and specs are values, so
  copying them is implicit, and the stateful set is passed as a value instead of through a
  pointer. No object is shared between two outputs in the source either.
- `findPodTemplate` (lines 385-387) is not modelled: its body is unfinished, and nothing
  calls it.
- `CreateObjects` returns its three lists as one `Objects` record, instead of a list of
  untyped values.
- As written, `setupStatefulSetVolumeClaimTemplates` is called at line 380 under a singular
  name it does not have. Its implicit part uses `volumeClaimTemplate` at lines 472 and 498,
  but that name is declared only inside the claim loop's `if` (line 453), so it is out of
  scope there. It also uses `volumeClaimTemplateName` at lines 474, 488 and 503, which is
  declared nowhere. The model reads the implicit candidate as the claim template named like
  the first entry of the claim-template catalog, looked up through the index. There is no
  candidate when the catalog is empty.
- Models.SetupDefaultDataVolume, Models.WithDefaultDataVolume, Models.DefaultDataVolumeRule,
  Models.Creator.WithVolumeClaims, Models.Creator.SetupStatefulSetVolumeClaimTemplates,
  Models.Creator.StatefulSetFor, Models.Creator.CreateStatefulSetObjects,
  Models.Creator.CreateObjects, Models.Creator.ImplicitDataMountAdded and
  Models.Creator.ImplicitDataVolume: these follow the corrected implicit data-volume step
  of the "## Findings" row, `Models.AddDefaultDataVolume`. It attaches the claim template's
  claim along with the mount. Lines 493-501 as written append only the mount. That step is
  `Models.AddDefaultDataMountAsWritten`, and `Models.AsWrittenDataMountUnbacked` states what
  it leaves unbacked.
- Models.WithDefaultDataVolume: the source indexes container 0 without a check, which panics
  when a candidate exists and the pod has no container. The model returns
  `Err(MissingPrimaryContainer)` there instead. `CreateStatefulSetObjects` and
  `CreateObjects` pass the first such failure on.
- `Replicas` is a Go `int32`. The model uses an integer, and the only value ever set is 1.
- Ports and the probe are kept as names and numbers. `intstr.Parse` is read as "the HTTP
  port, by name".

## Findings

| source | as written | input that shows it | evidently intended | confidence | as-written member | corrected member |
|---|---|---|---|---|---|---|
| pkg/models/create_objects.go:493-501 | When the offered claim template has no home on the ClickHouse container, the code appends a mount of it at `/var/lib/clickhouse` but no claim | A replica on the default pod template, with one claim template `data`: the container mounts volume `data`, which no claim and no pod volume provides | Mounting the claim template as the data volume also attaches its claim, unless a claim of that name is already present | not executed | Models.AsWrittenDataMountUnbacked | Models.DefaultDataVolumeBacked |
