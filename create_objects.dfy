/**
 * The object-synthesis engine of the ClickHouse operator: from an installation and
 * its two template catalogs it builds the config maps, services and stateful sets
 * of a ClickHouse cluster.
 */
module Models {
  import opened Wrappers
  import opened Kube
  import opened Chi
  import opened Constants
  import opened TemplateIndex
  import opened ConfigSections

  /** Synthesis fails when a claim must be mounted into a pod template that has no ClickHouse container. */
  datatype SynthesisError = MissingPrimaryContainer(statefulSet: string)

  /** Everything the engine creates: services, then config maps, then stateful sets. */
  datatype Objects = Objects(services: seq<Service>, configMaps: seq<ConfigMap>, statefulSets: seq<StatefulSet>)

  // ----------------------------------------------------------------------------
  // Ownership

  /** Recognizes objects created by the operator: they carry the operator-version label. */
  function IsChopGeneratedObject(meta: ObjectMeta): (generated: bool)
    ensures generated <==> ChopGeneratedLabel in meta.labels
    ensures meta.labels == map[] ==> !generated
  {
    if |meta.labels| == 0 then false else ChopGeneratedLabel in meta.labels
  }

  /** Every label of `selector` is present in `labels` with the same value. */
  predicate Selects(selector: Labels, labels: Labels)
  {
    forall key :: key in selector ==> key in labels && labels[key] == selector[key]
  }

  /** The bundle holds `text` under `filename` when `text` is non-empty, and nothing under it otherwise. */
  predicate RendersSection(sections: Sections, filename: string, text: string)
  {
    && (filename in sections <==> text != "")
    && (filename in sections ==> sections[filename] == text)
  }

  /** Decimal rendering of an integer, as label values carry indices. */
  function Itoa(n: int): string
  {
    if n < 0 then "-" + NatToString(-n) else NatToString(n)
  }

  function NatToString(n: nat): string
  {
    var digit := ["0123456789"[n % 10]];
    if n < 10 then digit else NatToString(n / 10) + digit
  }

  // ----------------------------------------------------------------------------
  // Pod templates, volumes and mounts

  /** A mount of the volume called `name` at `mountPath`. */
  function CreateVolumeMountObject(name: string, mountPath: string): (mount: VolumeMount)
    ensures mount.name == name && mount.mountPath == mountPath
  {
    VolumeMount(name, mountPath)
  }

  /** A pod volume backed by the config map `name`, and named after it. */
  function CreateVolumeObjectConfigMap(name: string): (volume: Volume)
    ensures volume.name == name && volume.source.ConfigMapVolume? && volume.source.configMapName == name
  {
    Volume(name, ConfigMapVolume(name))
  }

  /** The three canonical ClickHouse ports, as container ports. */
  function CanonicalContainerPorts(): seq<ContainerPort>
  {
    [ ContainerPort(HttpPortName, HttpPortNumber),
      ContainerPort(ClientPortName, ClientPortNumber),
      ContainerPort(InterServerPortName, InterServerPortNumber) ]
  }

  /**
   * The pod template used when a replica names no known template: a single ClickHouse
   * container exposing the three canonical ports, ready once /ping answers on the
   * HTTP port, with no volumes or mounts of its own.
   */
  function CreateDefaultPodTemplate(name: string): (template: PodTemplate)
    ensures template.name == name
    ensures |template.spec.containers| == 1 && template.spec.volumes == []
    ensures template.spec.containers[0].ports == CanonicalContainerPorts()
    ensures template.spec.containers[0].readinessProbe == Some(HttpGetProbe("/ping", HttpPortName, 10, 10))
    ensures template.spec.containers[0].volumeMounts == []
  {
    Template(name, PodSpec(
      [ Container("clickhouse", DefaultClickHouseDockerImage, CanonicalContainerPorts(),
                  Some(HttpGetProbe("/ping", HttpPortName, 10, 10)), []) ],
      []))
  }

  /** The stateful set whose pod template takes the name and a copy of the spec of `src`. */
  function CopyPodTemplateFrom(dst: StatefulSet, src: PodTemplate): (r: StatefulSet)
    ensures r.meta == dst.meta
    ensures r.spec.template.meta == dst.spec.template.meta.(name := src.name)
    ensures r.spec.template.spec == src.spec
    ensures r.spec == dst.spec.(template := r.spec.template)
  {
    dst.(spec := dst.spec.(template := PodTemplateSpec(dst.spec.template.meta.(name := src.name), src.spec)))
  }

  /** The claim a stateful set gets from a claim template: its name and a copy of its spec. */
  function ClaimFrom(src: VolumeClaimTemplate): PersistentVolumeClaim
  {
    PersistentVolumeClaim(src.name, src.spec)
  }

  /** The stateful set with one more claim, made from `src`, at the end of its claim list. */
  function AppendVolumeClaimTemplateFrom(dst: StatefulSet, src: VolumeClaimTemplate): (r: StatefulSet)
    ensures r.meta == dst.meta
    ensures r.spec.volumeClaimTemplates == dst.spec.volumeClaimTemplates + [PersistentVolumeClaim(src.name, src.spec)]
    ensures r.spec == dst.spec.(volumeClaimTemplates := r.spec.volumeClaimTemplates)
  {
    dst.(spec := dst.spec.(volumeClaimTemplates := dst.spec.volumeClaimTemplates + [ClaimFrom(src)]))
  }

  /** The stateful set's containers. */
  function Containers(sts: StatefulSet): seq<Container>
  {
    sts.spec.template.spec.containers
  }

  /** The stateful set with its containers replaced. */
  function WithContainers(sts: StatefulSet, containers: seq<Container>): StatefulSet
  {
    sts.(spec := sts.spec.(template := sts.spec.template.(spec := sts.spec.template.spec.(containers := containers))))
  }

  /** The stateful set with its claim list replaced. */
  function WithClaims(sts: StatefulSet, claims: seq<PersistentVolumeClaim>): StatefulSet
  {
    sts.(spec := sts.spec.(volumeClaimTemplates := claims))
  }

  /** Some mount of the container uses the volume `name`. */
  predicate MountsName(container: Container, name: string)
  {
    exists k :: 0 <= k < |container.volumeMounts| && container.volumeMounts[k].name == name
  }

  /** Some mount of the container is at `path`. */
  predicate MountsPath(container: Container, path: string)
  {
    exists k :: 0 <= k < |container.volumeMounts| && container.volumeMounts[k].mountPath == path
  }

  /** Some claim of the list is called `name`. */
  predicate HasClaim(claims: seq<PersistentVolumeClaim>, name: string)
  {
    exists k :: 0 <= k < |claims| && claims[k].name == name
  }

  /** A claim of a given name is in a concatenation exactly when it is in one of the parts. */
  lemma HasClaimConcat(a: seq<PersistentVolumeClaim>, b: seq<PersistentVolumeClaim>, name: string)
    ensures HasClaim(a + b, name) <==> HasClaim(a, name) || HasClaim(b, name)
  {
    if HasClaim(a + b, name) {
      var k :| 0 <= k < |a + b| && (a + b)[k].name == name;
      if k >= |a| {
        assert b[k - |a|].name == name;
      }
    }
    if HasClaim(a, name) {
      var k :| 0 <= k < |a| && a[k].name == name;
      assert (a + b)[k].name == name;
    }
    if HasClaim(b, name) {
      var k :| 0 <= k < |b| && b[k].name == name;
      assert (a + b)[|a| + k].name == name;
    }
  }

  /**
   * The claim template `name` still needs a home on the ClickHouse container: no mount
   * there uses it by name, and nothing is mounted at the data directory yet.
   */
  predicate NeedsDefaultDataMount(primary: Container, name: string)
  {
    !MountsName(primary, name) && !MountsPath(primary, DirPathClickHouseData)
  }

  /**
   * The implicit data-volume step as the source writes it: when the claim template is
   * not yet used by the ClickHouse container and nothing is mounted at the data
   * directory, mount the template's volume there. No claim is attached.
   */
  function AddDefaultDataMountAsWritten(sts: StatefulSet, t: VolumeClaimTemplate): (r: StatefulSet)
    requires |Containers(sts)| > ClickHouseContainerIndex
  {
    var primary := Containers(sts)[ClickHouseContainerIndex];
    if NeedsDefaultDataMount(primary, t.name) then
      var mounted := primary.(volumeMounts := primary.volumeMounts
                                              + [CreateVolumeMountObject(t.name, DirPathClickHouseData)]);
      WithContainers(sts, Containers(sts)[ClickHouseContainerIndex := mounted])
    else
      sts
  }

  /**
   * The implicit data-volume step with the claim attached: as written, and when the
   * mount is added and no claim of that name exists yet, the template's claim as well.
   * At most one mount is added, always to the ClickHouse container at the data directory.
   */
  function AddDefaultDataVolume(sts: StatefulSet, t: VolumeClaimTemplate): (r: StatefulSet)
    requires |Containers(sts)| > ClickHouseContainerIndex
  {
    var mounted := AddDefaultDataMountAsWritten(sts, t);
    if NeedsDefaultDataMount(Containers(sts)[ClickHouseContainerIndex], t.name)
       && !HasClaim(sts.spec.volumeClaimTemplates, t.name)
    then AppendVolumeClaimTemplateFrom(mounted, t)
    else mounted
  }

  /**
   * The implicit data-volume step on an offered claim template, if any: nothing to do
   * without one, a failure when there is no ClickHouse container to mount it into.
   */
  function WithDefaultDataVolume(sts: StatefulSet, candidate: Option<VolumeClaimTemplate>): (r: Result<StatefulSet, SynthesisError>)
    ensures r.Err? <==> candidate.Some? && |Containers(sts)| <= ClickHouseContainerIndex
    ensures r.Err? ==> r.error == MissingPrimaryContainer(sts.meta.name)
    ensures candidate.None? ==> r == Ok(sts)
  {
    match candidate
    case None => Ok(sts)
    case Some(t) =>
      if |Containers(sts)| <= ClickHouseContainerIndex then Err(MissingPrimaryContainer(sts.meta.name))
      else Ok(AddDefaultDataVolume(sts, t))
  }

  /**
   * Offers the claim template `candidate` as the data volume of the ClickHouse container:
   * skipped when that container already mounts it by name or has something at the data
   * directory; otherwise the mount is added, and the claim unless one of its name exists.
   */
  method SetupDefaultDataVolume(s: StatefulSet, candidate: Option<VolumeClaimTemplate>) returns (r: Result<StatefulSet, SynthesisError>)
    ensures r == WithDefaultDataVolume(s, candidate)
  {
    if candidate.None? {
      return Ok(s);
    }
    var volumeClaimTemplate := candidate.value;
    var containers := Containers(s);
    if |containers| <= ClickHouseContainerIndex {
      return Err(MissingPrimaryContainer(s.meta.name));
    }
    var primaryMounts := containers[ClickHouseContainerIndex].volumeMounts;

    // 1. The claim template is already used by name on the ClickHouse container
    var k := 0;
    while k < |primaryMounts|
      invariant 0 <= k <= |primaryMounts|
      invariant forall m :: 0 <= m < k ==> primaryMounts[m].name != volumeClaimTemplate.name
    {
      if primaryMounts[k].name == volumeClaimTemplate.name {
        assert MountsName(containers[ClickHouseContainerIndex], volumeClaimTemplate.name);
        return Ok(s);
      }
      k := k + 1;
    }

    // 2. Something is already mounted at the data directory
    k := 0;
    while k < |primaryMounts|
      invariant 0 <= k <= |primaryMounts|
      invariant forall m :: 0 <= m < k ==> primaryMounts[m].mountPath != DirPathClickHouseData
    {
      if primaryMounts[k].mountPath == DirPathClickHouseData {
        assert MountsPath(containers[ClickHouseContainerIndex], DirPathClickHouseData);
        return Ok(s);
      }
      k := k + 1;
    }

    // 3. Mount the claim template's volume at the data directory, and attach its claim
    var primary := containers[ClickHouseContainerIndex].(volumeMounts :=
      primaryMounts + [CreateVolumeMountObject(volumeClaimTemplate.name, DirPathClickHouseData)]);
    var hadClaim := HasClaim(s.spec.volumeClaimTemplates, volumeClaimTemplate.name);
    var r' := WithContainers(s, containers[ClickHouseContainerIndex := primary]);
    if !hadClaim {
      r' := AppendVolumeClaimTemplateFrom(r', volumeClaimTemplate);
    }
    r := Ok(r');
  }

  /**
   * What the implicit data-volume step changes: only the ClickHouse container, which gets
   * one mount at the data directory exactly when the template needs a home there, and
   * the claim list, which gets the template's claim when that mount is added and no claim
   * of its name exists. Everything else stays as it was.
   */
  lemma DefaultDataVolumeRule(sts: StatefulSet, t: VolumeClaimTemplate)
    requires |Containers(sts)| > ClickHouseContainerIndex
    ensures var r := AddDefaultDataVolume(sts, t);
      var primary := Containers(sts)[ClickHouseContainerIndex];
      && r.meta == sts.meta
      && r.spec.replicas == sts.spec.replicas && r.spec.serviceName == sts.spec.serviceName
      && r.spec.selector == sts.spec.selector && r.spec.template.meta == sts.spec.template.meta
      && r.spec.template.spec.volumes == sts.spec.template.spec.volumes
      && |Containers(r)| == |Containers(sts)|
      && (forall k :: 0 <= k < |Containers(sts)| && k != ClickHouseContainerIndex ==> Containers(r)[k] == Containers(sts)[k])
      && (!NeedsDefaultDataMount(primary, t.name) ==> r == sts)
      && (NeedsDefaultDataMount(primary, t.name) ==>
            Containers(r)[ClickHouseContainerIndex]
            == primary.(volumeMounts := primary.volumeMounts + [VolumeMount(t.name, DirPathClickHouseData)]))
      && r.spec.volumeClaimTemplates ==
           if NeedsDefaultDataMount(primary, t.name) && !HasClaim(sts.spec.volumeClaimTemplates, t.name)
           then sts.spec.volumeClaimTemplates + [ClaimFrom(t)]
           else sts.spec.volumeClaimTemplates
  {
  }

  /**
   * As written, the implicit mount can name a volume the stateful set does not have:
   * whenever the mount is added while no claim and no pod volume carries that name,
   * the ClickHouse container ends up mounting a volume that nothing provides.
   */
  lemma AsWrittenDataMountUnbacked(sts: StatefulSet, t: VolumeClaimTemplate)
    requires |Containers(sts)| > ClickHouseContainerIndex
    requires NeedsDefaultDataMount(Containers(sts)[ClickHouseContainerIndex], t.name)
    requires !HasClaim(sts.spec.volumeClaimTemplates, t.name)
    requires forall v :: v in sts.spec.template.spec.volumes ==> v.name != t.name
    ensures var r := AddDefaultDataMountAsWritten(sts, t);
      && MountsName(Containers(r)[ClickHouseContainerIndex], t.name)
      && !HasClaim(r.spec.volumeClaimTemplates, t.name)
      && forall v :: v in r.spec.template.spec.volumes ==> v.name != t.name
  {
    var r := AddDefaultDataMountAsWritten(sts, t);
    var mounts := Containers(r)[ClickHouseContainerIndex].volumeMounts;
    assert mounts[|mounts| - 1].name == t.name;
  }

  /**
   * With the claim attached, the data of the ClickHouse container always has a home:
   * afterwards it uses the claim template by name or mounts something at the data
   * directory, and a mount the step adds is backed by a claim of the same name.
   */
  lemma DefaultDataVolumeBacked(sts: StatefulSet, t: VolumeClaimTemplate)
    requires |Containers(sts)| > ClickHouseContainerIndex
    ensures var r := AddDefaultDataVolume(sts, t);
      var primary := Containers(r)[ClickHouseContainerIndex];
      && (MountsName(primary, t.name) || MountsPath(primary, DirPathClickHouseData))
      && (NeedsDefaultDataMount(Containers(sts)[ClickHouseContainerIndex], t.name) ==>
            HasClaim(r.spec.volumeClaimTemplates, t.name))
  {
    var r := AddDefaultDataVolume(sts, t);
    var primary := Containers(r)[ClickHouseContainerIndex];
    if NeedsDefaultDataMount(Containers(sts)[ClickHouseContainerIndex], t.name) {
      assert primary.volumeMounts[|primary.volumeMounts| - 1].name == t.name;
      if !HasClaim(sts.spec.volumeClaimTemplates, t.name) {
        var claims := r.spec.volumeClaimTemplates;
        assert claims[|claims| - 1].name == t.name;
      }
    }
  }

  /** Applying the implicit data-volume step a second time changes nothing. */
  lemma DefaultDataVolumeIdempotent(sts: StatefulSet, t: VolumeClaimTemplate)
    requires |Containers(sts)| > ClickHouseContainerIndex
    ensures AddDefaultDataVolume(AddDefaultDataVolume(sts, t), t) == AddDefaultDataVolume(sts, t)
  {
    DefaultDataVolumeBacked(sts, t);
  }

  // Prepend and the three sequence identities after CollectSpec only serve the loop
  // invariant of the stateful-set loop; they state nothing about the operator.

  /** A list of objects put in front of a further result, unless that result is a failure. */
  function Prepend<T>(list: seq<T>, r: Result<seq<T>, SynthesisError>): Result<seq<T>, SynthesisError>
  {
    match r
    case Ok(rest) => Ok(list + rest)
    case Err(e) => Err(e)
  }

  /**
   * The objects of a list of results, in order, or the failure of the first result that
   * is one.
   */
  function Collect<T>(results: seq<Result<T, SynthesisError>>): Result<seq<T>, SynthesisError>
  {
    if results == [] then Ok([])
    else
      match results[0]
      case Err(e) => Err(e)
      case Ok(x) => Prepend([x], Collect(results[1..]))
  }

  /**
   * Collecting succeeds exactly when every result does, and then yields their objects
   * in order; otherwise it yields the failure of the first failed result.
   */
  lemma {:induction false} CollectSpec<T>(results: seq<Result<T, SynthesisError>>)
    ensures Collect(results).Ok? <==> forall i :: 0 <= i < |results| ==> results[i].Ok?
    ensures Collect(results).Ok? ==>
      |Collect(results).value| == |results| && forall i :: 0 <= i < |results| ==> results[i] == Ok(Collect(results).value[i])
    ensures Collect(results).Err? ==>
      exists i :: 0 <= i < |results| && results[i] == Err(Collect(results).error)
                  && forall j :: 0 <= j < i ==> results[j].Ok?
  {
    if results != [] {
      var rest := results[1..];
      CollectSpec(rest);
      if results[0].Ok? {
        if Collect(rest).Ok? {
          forall i | 0 <= i < |results|
            ensures results[i] == Ok(Collect(results).value[i])
          {
            if i > 0 {
              assert results[i] == rest[i - 1];
            }
          }
        } else {
          var i :| 0 <= i < |rest| && rest[i] == Err(Collect(rest).error)
                   && forall j :: 0 <= j < i ==> rest[j].Ok?;
          assert results[i + 1] == rest[i];
          forall j | 0 <= j < i + 1
            ensures results[j].Ok?
          {
            if j > 0 {
              assert results[j] == rest[j - 1];
            }
          }
        }
      }
    }
  }

  /** Putting two lists in front one after the other is putting their concatenation in front. */
  lemma PrependTwice<T>(first: seq<T>, second: seq<T>, r: Result<seq<T>, SynthesisError>)
    ensures Prepend(first, Prepend(second, r)) == Prepend(first + second, r)
  {
    if r.Ok? {
      assert first + (second + r.value) == (first + second) + r.value;
    }
  }

  /** Putting nothing in front of a result leaves it as it is. */
  lemma PrependToNothing<T>(r: Result<seq<T>, SynthesisError>)
    ensures Prepend([], r) == r
  {
    if r.Ok? {
      assert [] + r.value == r.value;
    }
  }

  /** Putting a list in front of an empty success yields that list. */
  lemma PrependNothing<T>(list: seq<T>)
    ensures Prepend(list, Ok([])) == Ok(list)
  {
    assert list + [] == list;
  }

  // ----------------------------------------------------------------------------
  // The creator

  /**
   * One synthesis run over one installation. The two indices are filled once, by the
   * constructor, and only read afterwards.
   */
  class Creator {
    const chi: Installation
    const config: Config
    const appVersion: string
    const naming: Naming
    const content: Generators
    var podTemplatesIndex: map<string, PodTemplate>
    var volumeClaimTemplatesIndex: map<string, VolumeClaimTemplate>

    /** The indices are those of the installation's catalogs. */
    ghost predicate Valid()
      reads this
    {
      && podTemplatesIndex == Index(chi.podTemplates)
      && volumeClaimTemplatesIndex == Index(chi.volumeClaimTemplates)
    }

    constructor (chi: Installation, config: Config, appVersion: string, naming: Naming, content: Generators)
      ensures Valid()
      ensures this.chi == chi && this.config == config && this.appVersion == appVersion
      ensures this.naming == naming && this.content == content
    {
      this.chi := chi;
      this.config := config;
      this.appVersion := appVersion;
      this.naming := naming;
      this.content := content;
      podTemplatesIndex := map[];
      volumeClaimTemplatesIndex := map[];
      new;
      CreatePodTemplatesIndex();
      CreateVolumeClaimTemplatesIndex();
    }

    /** Fills the pod-template index, one catalog entry after another. */
    method CreatePodTemplatesIndex()
      modifies this`podTemplatesIndex
      ensures podTemplatesIndex == Index(chi.podTemplates)
    {
      podTemplatesIndex := map[];
      var i := 0;
      while i < |chi.podTemplates|
        invariant 0 <= i <= |chi.podTemplates|
        invariant podTemplatesIndex == Index(chi.podTemplates[..i])
      {
        var podTemplate := chi.podTemplates[i];
        IndexStep(chi.podTemplates, i);
        podTemplatesIndex := podTemplatesIndex[podTemplate.name := podTemplate];
        i := i + 1;
      }
      assert chi.podTemplates[..i] == chi.podTemplates;
    }

    /** Fills the claim-template index, one catalog entry after another. */
    method CreateVolumeClaimTemplatesIndex()
      modifies this`volumeClaimTemplatesIndex
      ensures volumeClaimTemplatesIndex == Index(chi.volumeClaimTemplates)
    {
      volumeClaimTemplatesIndex := map[];
      var i := 0;
      while i < |chi.volumeClaimTemplates|
        invariant 0 <= i <= |chi.volumeClaimTemplates|
        invariant volumeClaimTemplatesIndex == Index(chi.volumeClaimTemplates[..i])
      {
        var volumeClaimTemplate := chi.volumeClaimTemplates[i];
        IndexStep(chi.volumeClaimTemplates, i);
        volumeClaimTemplatesIndex := volumeClaimTemplatesIndex[volumeClaimTemplate.name := volumeClaimTemplate];
        i := i + 1;
      }
      assert chi.volumeClaimTemplates[..i] == chi.volumeClaimTemplates;
    }

    /** Looks a pod template up by name: found exactly when declared, and then the last entry of that name. */
    function GetPodTemplate(name: string): (t: Option<PodTemplate>)
      reads this
      requires Valid()
      ensures t.Some? <==> Declares(chi.podTemplates, name)
      ensures t.Some? ==> t.value == chi.podTemplates[LastDeclared(chi.podTemplates, name)]
    {
      IndexLookup(chi.podTemplates, name);
      if name in podTemplatesIndex then Some(podTemplatesIndex[name]) else None
    }

    /** Looks a claim template up by name: found exactly when declared, and then the last entry of that name. */
    function GetVolumeClaimTemplate(name: string): (t: Option<VolumeClaimTemplate>)
      reads this
      requires Valid()
      ensures t.Some? <==> Declares(chi.volumeClaimTemplates, name)
      ensures t.Some? ==> t.value == chi.volumeClaimTemplates[LastDeclared(chi.volumeClaimTemplates, name)]
    {
      IndexLookup(chi.volumeClaimTemplates, name);
      if name in volumeClaimTemplatesIndex then Some(volumeClaimTemplatesIndex[name]) else None
    }

    // --------------------------------------------------------------------------
    // Config maps

    /** The labels of the installation-wide objects. */
    function ChiLabels(): Labels
    {
      map[ChopGeneratedLabel := appVersion, ChiGeneratedLabel := chi.name]
    }

    /**
     * The generated files of the common bundle: remote servers, ZooKeeper, settings and
     * listen addresses, each present exactly when its generator rendered something.
     */
    function GeneratedCommonSections(): (sections: Sections)
      ensures AllNonEmpty(sections)
      ensures sections.Keys <= {FilenameRemoteServersXML, FilenameZookeeperXML, FilenameSettingsXML, FilenameListenXML}
      ensures RendersSection(sections, FilenameRemoteServersXML, content.remoteServers(chi))
      ensures RendersSection(sections, FilenameZookeeperXML, content.zookeeper(chi))
      ensures RendersSection(sections, FilenameSettingsXML, content.settings(chi))
      ensures RendersSection(sections, FilenameListenXML, content.listen(chi))
    {
      var sections := IncludeNonEmpty(map[], FilenameRemoteServersXML, content.remoteServers(chi));
      var sections := IncludeNonEmpty(sections, FilenameZookeeperXML, content.zookeeper(chi));
      var sections := IncludeNonEmpty(sections, FilenameSettingsXML, content.settings(chi));
      IncludeNonEmpty(sections, FilenameListenXML, content.listen(chi))
    }

    /**
     * The generated files of the common-users bundle: users, quotas and profiles, each
     * present exactly when its generator rendered something.
     */
    function GeneratedUsersSections(): (sections: Sections)
      ensures AllNonEmpty(sections)
      ensures sections.Keys <= {FilenameUsersXML, FilenameQuotasXML, FilenameProfilesXML}
      ensures RendersSection(sections, FilenameUsersXML, content.users(chi))
      ensures RendersSection(sections, FilenameQuotasXML, content.quotas(chi))
      ensures RendersSection(sections, FilenameProfilesXML, content.profiles(chi))
    {
      var sections := IncludeNonEmpty(map[], FilenameUsersXML, content.users(chi));
      var sections := IncludeNonEmpty(sections, FilenameQuotasXML, content.quotas(chi));
      IncludeNonEmpty(sections, FilenameProfilesXML, content.profiles(chi))
    }

    /** The generated file of a replica's bundle: its macros, present exactly when rendered. */
    function GeneratedPodSections(replica: Replica): (sections: Sections)
      ensures AllNonEmpty(sections)
      ensures sections.Keys <= {FilenameMacrosXML}
      ensures RendersSection(sections, FilenameMacrosXML, content.hostMacros(replica))
    {
      IncludeNonEmpty(map[], FilenameMacrosXML, content.hostMacros(replica))
    }

    /** The config map holding one replica's bundle: its macros, then the operator's pod files. */
    function PodConfigMap(replica: Replica): (cm: ConfigMap)
      ensures cm.meta.name == naming.configMapPodName(replica.address)
      ensures cm.meta.namespace == replica.address.namespace
      ensures IsChopGeneratedObject(cm.meta)
      ensures cm.data == WithExtras(GeneratedPodSections(replica), config.chPodConfigs)
      ensures AllNonEmpty(cm.data)
    {
      ConfigMap(
        ObjectMeta(naming.configMapPodName(replica.address), replica.address.namespace,
                   map[ChopGeneratedLabel := appVersion, ChiGeneratedLabel := replica.address.chiName]),
        WithExtras(GeneratedPodSections(replica), config.chPodConfigs))
    }

    /** The config map holding the common bundle: generated files, then the operator's extra files. */
    function CommonConfigMap(): (cm: ConfigMap)
      ensures cm.meta.name == naming.configMapCommonName(chi.name)
      ensures cm.meta.namespace == chi.namespace && cm.meta.labels == ChiLabels()
      ensures IsChopGeneratedObject(cm.meta)
      ensures cm.data == WithExtras(GeneratedCommonSections(), config.chCommonConfigs)
      ensures AllNonEmpty(cm.data)
    {
      ConfigMap(ObjectMeta(naming.configMapCommonName(chi.name), chi.namespace, ChiLabels()),
                WithExtras(GeneratedCommonSections(), config.chCommonConfigs))
    }

    /** The config map holding the common-users bundle: generated files, then the operator's extra files. */
    function CommonUsersConfigMap(): (cm: ConfigMap)
      ensures cm.meta.name == naming.configMapCommonUsersName(chi.name)
      ensures cm.meta.namespace == chi.namespace && cm.meta.labels == ChiLabels()
      ensures IsChopGeneratedObject(cm.meta)
      ensures cm.data == WithExtras(GeneratedUsersSections(), config.chUsersConfigs)
      ensures AllNonEmpty(cm.data)
    {
      ConfigMap(ObjectMeta(naming.configMapCommonUsersName(chi.name), chi.namespace, ChiLabels()),
                WithExtras(GeneratedUsersSections(), config.chUsersConfigs))
    }

    /**
     * The two installation-wide config maps: the common bundle first, then the
     * common-users bundle, each with the operator's extra files applied last.
     */
    method CreateConfigMapObjectsCommon() returns (list: seq<ConfigMap>)
      ensures list == [CommonConfigMap(), CommonUsersConfigMap()]
      ensures forall i :: 0 <= i < |list| ==> IsChopGeneratedObject(list[i].meta) && AllNonEmpty(list[i].data)
    {
      var commonConfigSections := IncludeNonEmpty(map[], FilenameRemoteServersXML, content.remoteServers(chi));
      commonConfigSections := IncludeNonEmpty(commonConfigSections, FilenameZookeeperXML, content.zookeeper(chi));
      commonConfigSections := IncludeNonEmpty(commonConfigSections, FilenameSettingsXML, content.settings(chi));
      commonConfigSections := IncludeNonEmpty(commonConfigSections, FilenameListenXML, content.listen(chi));
      commonConfigSections := IncludeExtras(commonConfigSections, config.chCommonConfigs);

      var commonUsersConfigSections := IncludeNonEmpty(map[], FilenameUsersXML, content.users(chi));
      commonUsersConfigSections := IncludeNonEmpty(commonUsersConfigSections, FilenameQuotasXML, content.quotas(chi));
      commonUsersConfigSections := IncludeNonEmpty(commonUsersConfigSections, FilenameProfilesXML, content.profiles(chi));
      commonUsersConfigSections := IncludeExtras(commonUsersConfigSections, config.chUsersConfigs);

      list := [
        ConfigMap(ObjectMeta(naming.configMapCommonName(chi.name), chi.namespace, ChiLabels()), commonConfigSections),
        ConfigMap(ObjectMeta(naming.configMapCommonUsersName(chi.name), chi.namespace, ChiLabels()), commonUsersConfigSections)
      ];
    }

    /** One config map per replica, in walk order. */
    method CreateConfigMapObjectsPod() returns (list: seq<ConfigMap>)
      ensures |list| == |chi.replicas|
      ensures forall i :: 0 <= i < |list| ==> list[i] == PodConfigMap(chi.replicas[i])
    {
      list := [];
      var i := 0;
      while i < |chi.replicas|
        invariant 0 <= i <= |chi.replicas|
        invariant |list| == i
        invariant forall k :: 0 <= k < i ==> list[k] == PodConfigMap(chi.replicas[k])
      {
        var replica := chi.replicas[i];
        var podConfigSections := IncludeNonEmpty(map[], FilenameMacrosXML, content.hostMacros(replica));
        podConfigSections := IncludeExtras(podConfigSections, config.chPodConfigs);
        list := list + [ConfigMap(
          ObjectMeta(naming.configMapPodName(replica.address), replica.address.namespace,
                     map[ChopGeneratedLabel := appVersion, ChiGeneratedLabel := replica.address.chiName]),
          podConfigSections)];
        i := i + 1;
      }
    }

    /** All config maps: the two installation-wide ones, then one per replica in walk order. */
    method CreateConfigMapObjects() returns (list: seq<ConfigMap>)
      ensures |list| == 2 + |chi.replicas|
      ensures list[0] == CommonConfigMap() && list[1] == CommonUsersConfigMap()
      ensures forall i :: 0 <= i < |chi.replicas| ==> list[2 + i] == PodConfigMap(chi.replicas[i])
      ensures forall i :: 0 <= i < |list| ==> IsChopGeneratedObject(list[i].meta) && AllNonEmpty(list[i].data)
    {
      var common := CreateConfigMapObjectsCommon();
      var pod := CreateConfigMapObjectsPod();
      list := common + pod;
      assert list[0] == common[0] && list[1] == common[1];
      forall i | 0 <= i < |chi.replicas|
        ensures list[2 + i] == PodConfigMap(chi.replicas[i])
      {
        assert list[2 + i] == pod[i];
      }
      forall i | 0 <= i < |list|
        ensures IsChopGeneratedObject(list[i].meta) && AllNonEmpty(list[i].data)
      {
        if i == 0 {
          assert list[i] == CommonConfigMap();
        } else if i == 1 {
          assert list[i] == CommonUsersConfigMap();
        } else {
          assert list[i] == PodConfigMap(chi.replicas[i - 2]);
        }
      }
    }

    // --------------------------------------------------------------------------
    // Services

    /**
     * The installation-wide service: load-balanced, exposing the HTTP and client ports,
     * selecting every pod labelled with the installation's name.
     */
    function ServiceObjectChi(serviceName: string): (svc: Service)
      ensures svc.meta.name == serviceName && svc.meta.namespace == chi.namespace
      ensures IsChopGeneratedObject(svc.meta)
      ensures svc.spec.ports == [ServicePort(HttpPortName, HttpPortNumber), ServicePort(ClientPortName, ClientPortNumber)]
      ensures svc.spec.serviceType == LoadBalancer
      ensures svc.spec.selector == map[ChiGeneratedLabel := chi.name]
    {
      Service(
        ObjectMeta(serviceName, chi.namespace, ChiLabels()),
        ServiceSpec(
          [ServicePort(HttpPortName, HttpPortNumber), ServicePort(ClientPortName, ClientPortNumber)],
          map[ChiGeneratedLabel := chi.name],
          "",
          LoadBalancer))
    }

    /** The labels of a replica's service. */
    function ReplicaServiceLabels(replica: Replica): Labels
    {
      map[ChopGeneratedLabel := appVersion,
          ChiGeneratedLabel := replica.address.chiName,
          ClusterGeneratedLabel := replica.address.clusterName,
          ClusterIndexGeneratedLabel := Itoa(replica.address.clusterIndex),
          ReplicaIndexGeneratedLabel := Itoa(replica.address.replicaIndex)]
    }

    /**
     * A replica's own service: headless and cluster-internal, exposing the HTTP, client
     * and inter-server ports, selecting the pods of the replica's stateful set by name.
     */
    function ServiceObjectPod(replica: Replica): (svc: Service)
      ensures svc.meta.name == naming.statefulSetServiceName(replica.address)
      ensures svc.meta.namespace == replica.address.namespace
      ensures IsChopGeneratedObject(svc.meta)
      ensures svc.spec.ports == [ServicePort(HttpPortName, HttpPortNumber), ServicePort(ClientPortName, ClientPortNumber),
                                 ServicePort(InterServerPortName, InterServerPortNumber)]
      ensures svc.spec.serviceType == ClusterIP && svc.spec.clusterIP == HeadlessClusterIP
      ensures svc.spec.selector == map[AppLabel := naming.statefulSetName(replica.address)]
    {
      Service(
        ObjectMeta(naming.statefulSetServiceName(replica.address), replica.address.namespace, ReplicaServiceLabels(replica)),
        ServiceSpec(
          [ServicePort(HttpPortName, HttpPortNumber), ServicePort(ClientPortName, ClientPortNumber),
           ServicePort(InterServerPortName, InterServerPortNumber)],
          map[AppLabel := naming.statefulSetName(replica.address)],
          HeadlessClusterIP,
          ClusterIP))
    }

    /** The single installation-wide service, under the installation's predictable service name. */
    method CreateServiceObjectsCommon() returns (list: seq<Service>)
      ensures |list| == 1
      ensures list[0].meta.name == naming.chiServiceName(chi)
      ensures list[0] == ServiceObjectChi(naming.chiServiceName(chi))
    {
      list := [ServiceObjectChi(naming.chiServiceName(chi))];
    }

    /** One service per replica, in walk order. */
    method CreateServiceObjectsPod() returns (list: seq<Service>)
      ensures |list| == |chi.replicas|
      ensures forall i :: 0 <= i < |list| ==> list[i] == ServiceObjectPod(chi.replicas[i])
    {
      list := [];
      var i := 0;
      while i < |chi.replicas|
        invariant 0 <= i <= |chi.replicas|
        invariant |list| == i
        invariant forall k :: 0 <= k < i ==> list[k] == ServiceObjectPod(chi.replicas[k])
      {
        list := list + [ServiceObjectPod(chi.replicas[i])];
        i := i + 1;
      }
    }

    /** All services: the installation-wide one, then one per replica in walk order. */
    method CreateServiceObjects() returns (list: seq<Service>)
      ensures |list| == 1 + |chi.replicas|
      ensures list[0] == ServiceObjectChi(naming.chiServiceName(chi))
      ensures forall i :: 0 <= i < |chi.replicas| ==> list[1 + i] == ServiceObjectPod(chi.replicas[i])
    {
      var common := CreateServiceObjectsCommon();
      var pod := CreateServiceObjectsPod();
      list := common + pod;
      forall i | 0 <= i < |chi.replicas|
        ensures list[1 + i] == ServiceObjectPod(chi.replicas[i])
      {
        assert list[1 + i] == pod[i];
      }
    }

    // --------------------------------------------------------------------------
    // Stateful sets

    /** The labels of a replica's stateful set. */
    function StatefulSetLabels(replica: Replica): Labels
    {
      map[ChopGeneratedLabel := appVersion,
          ChiGeneratedLabel := replica.address.chiName,
          ZkVersionLabel := replica.zkFingerprint]
    }

    /** The labels of the pods of a replica's stateful set; the first one is what selectors match. */
    function PodLabels(replica: Replica): Labels
    {
      map[AppLabel := naming.statefulSetName(replica.address),
          ChopGeneratedLabel := appVersion,
          ChiGeneratedLabel := replica.address.chiName,
          ZkVersionLabel := replica.zkFingerprint]
    }

    /**
     * The stateful set of a replica before its pod template and claims are set up:
     * one pod, governed by the replica's service, selecting its pods by the set's name.
     */
    function NewStatefulSet(replica: Replica): StatefulSet
    {
      var statefulSetName := naming.statefulSetName(replica.address);
      StatefulSet(
        ObjectMeta(statefulSetName, replica.address.namespace, StatefulSetLabels(replica)),
        StatefulSetSpec(
          1,
          naming.statefulSetServiceName(replica.address),
          map[AppLabel := statefulSetName],
          [],
          PodTemplateSpec(ObjectMeta("", "", map[]), PodSpec([], []))))
    }

    /**
     * The pod template a replica runs: the catalog entry it names (the last one of that
     * name), or the default template when it names none that is declared.
     */
    function ResolvedPodTemplate(replica: Replica): (t: PodTemplate)
      reads this
      requires Valid()
      ensures Declares(chi.podTemplates, replica.podTemplate) ==>
        t == chi.podTemplates[LastDeclared(chi.podTemplates, replica.podTemplate)]
      ensures !Declares(chi.podTemplates, replica.podTemplate) ==>
        t == CreateDefaultPodTemplate(naming.statefulSetName(replica.address))
    {
      match GetPodTemplate(replica.podTemplate)
      case Some(t) => t
      case None => CreateDefaultPodTemplate(naming.statefulSetName(replica.address))
    }

    /** The mounts of the common, common-users and macros bundles, in that order. */
    function ConfigMapMounts(address: Address): seq<VolumeMount>
    {
      [ CreateVolumeMountObject(naming.configMapCommonName(address.chiName), DirPathConfigd),
        CreateVolumeMountObject(naming.configMapCommonUsersName(address.chiName), DirPathUsersd),
        CreateVolumeMountObject(naming.configMapPodName(address), DirPathConfd) ]
    }

    /** The pod volumes of the common, common-users and macros config maps, in that order. */
    function ConfigMapVolumes(address: Address): seq<Volume>
    {
      [ CreateVolumeObjectConfigMap(naming.configMapCommonName(address.chiName)),
        CreateVolumeObjectConfigMap(naming.configMapCommonUsersName(address.chiName)),
        CreateVolumeObjectConfigMap(naming.configMapPodName(address)) ]
    }

    /**
     * The pod template of a replica's stateful set: labelled with the pod labels, named
     * and shaped after the resolved template, each container keeping its own mounts and
     * getting the three bundle mounts after them, the pod getting the three bundle volumes.
     */
    function PodTemplateFor(replica: Replica): (pod: PodTemplateSpec)
      reads this
      requires Valid()
      ensures pod.meta == ObjectMeta(ResolvedPodTemplate(replica).name, "", PodLabels(replica))
      ensures var t := ResolvedPodTemplate(replica).spec;
        && |pod.spec.containers| == |t.containers|
        && (forall k :: 0 <= k < |t.containers| ==>
              pod.spec.containers[k] == t.containers[k].(volumeMounts := t.containers[k].volumeMounts + ConfigMapMounts(replica.address)))
        && pod.spec.volumes == t.volumes + ConfigMapVolumes(replica.address)
    {
      var t := ResolvedPodTemplate(replica).spec;
      var mounts := ConfigMapMounts(replica.address);
      PodTemplateSpec(
        ObjectMeta(ResolvedPodTemplate(replica).name, "", PodLabels(replica)),
        PodSpec(
          seq(|t.containers|, k requires 0 <= k < |t.containers| =>
            t.containers[k].(volumeMounts := t.containers[k].volumeMounts + mounts)),
          t.volumes + ConfigMapVolumes(replica.address)))
    }

    /**
     * Sets up the pod template of a replica's stateful set: labels, the resolved template,
     * then the three bundle mounts on every container and the three bundle volumes.
     * Nothing else of the stateful set changes.
     */
    method SetupStatefulSetPodTemplate(statefulSet: StatefulSet, replica: Replica) returns (r: StatefulSet)
      requires Valid()
      ensures r == statefulSet.(spec := statefulSet.spec.(template := PodTemplateFor(replica)))
    {
      var statefulSetName := naming.statefulSetName(replica.address);
      var configMapMacrosName := naming.configMapPodName(replica.address);
      var configMapCommonName := naming.configMapCommonName(replica.address.chiName);
      var configMapCommonUsersName := naming.configMapCommonUsersName(replica.address.chiName);

      r := statefulSet.(spec := statefulSet.spec.(template :=
        PodTemplateSpec(ObjectMeta("", "", PodLabels(replica)), PodSpec([], []))));

      var podTemplate := GetPodTemplate(replica.podTemplate);
      if podTemplate.Some? {
        r := CopyPodTemplateFrom(r, podTemplate.value);
      } else {
        r := CopyPodTemplateFrom(r, CreateDefaultPodTemplate(statefulSetName));
      }

      ghost var resolved := ResolvedPodTemplate(replica).spec.containers;
      var containers := Containers(r);
      var i := 0;
      while i < |containers|
        invariant 0 <= i <= |containers| == |resolved|
        invariant forall k :: 0 <= k < i ==>
          containers[k] == resolved[k].(volumeMounts := resolved[k].volumeMounts + ConfigMapMounts(replica.address))
        invariant forall k :: i <= k < |containers| ==> containers[k] == resolved[k]
      {
        var container := containers[i];
        containers := containers[i := container.(volumeMounts := container.volumeMounts + [
          CreateVolumeMountObject(configMapCommonName, DirPathConfigd),
          CreateVolumeMountObject(configMapCommonUsersName, DirPathUsersd),
          CreateVolumeMountObject(configMapMacrosName, DirPathConfd)])];
        i := i + 1;
      }
      r := WithContainers(r, containers);

      r := r.(spec := r.spec.(template := r.spec.template.(spec := r.spec.template.spec.(volumes :=
        r.spec.template.spec.volumes + [
          CreateVolumeObjectConfigMap(configMapCommonName),
          CreateVolumeObjectConfigMap(configMapCommonUsersName),
          CreateVolumeObjectConfigMap(configMapMacrosName)]))));
    }

    /**
     * The claims attached for a list of mounts, in mount order: one copy of the indexed
     * claim template for each mount whose name the claim index knows, none for the others.
     */
    function ClaimsForMounts(mounts: seq<VolumeMount>): (claims: seq<PersistentVolumeClaim>)
      reads this
      requires Valid()
    {
      if mounts == [] then []
      else
        var last := mounts[|mounts| - 1];
        ClaimsForMounts(mounts[..|mounts| - 1]) + ClaimsForMount(last)
    }

    /** The claims attached for every mount of every container, containers in order. */
    function ClaimsForContainers(containers: seq<Container>): (claims: seq<PersistentVolumeClaim>)
      reads this
      requires Valid()
    {
      if containers == [] then []
      else ClaimsForContainers(containers[..|containers| - 1]) + ClaimsForMounts(containers[|containers| - 1].volumeMounts)
    }

    /** The claim a single mount contributes: the indexed template of its name, if any. */
    function ClaimsForMount(mount: VolumeMount): (claims: seq<PersistentVolumeClaim>)
      reads this
      requires Valid()
    {
      match GetVolumeClaimTemplate(mount.name)
      case Some(t) => [ClaimFrom(t)]
      case None => []
    }

    /**
     * Every claim attached for a list of mounts is a copy of a declared claim template,
     * the last catalog entry of its name, and there are no more claims than mounts.
     */
    lemma {:induction false} ClaimsAreCatalogCopies(mounts: seq<VolumeMount>)
      requires Valid()
      ensures |ClaimsForMounts(mounts)| <= |mounts|
      ensures forall k :: 0 <= k < |ClaimsForMounts(mounts)| ==>
        var claim := ClaimsForMounts(mounts)[k];
        && Declares(chi.volumeClaimTemplates, claim.name)
        && claim == ClaimFrom(chi.volumeClaimTemplates[LastDeclared(chi.volumeClaimTemplates, claim.name)])
    {
      if mounts != [] {
        ClaimsAreCatalogCopies(mounts[..|mounts| - 1]);
      }
    }

    /** One more mount of the inner loop adds that mount's claim, if any. */
    lemma ClaimsForMountsStep(mounts: seq<VolumeMount>, j: int)
      requires Valid() && 0 <= j < |mounts|
      ensures ClaimsForMounts(mounts[..j + 1]) == ClaimsForMounts(mounts[..j]) + ClaimsForMount(mounts[j])
    {
      assert mounts[..j + 1][..j] == mounts[..j];
    }

    /** One more container of the outer loop adds the claims of all its mounts. */
    lemma ClaimsForContainersStep(containers: seq<Container>, i: int)
      requires Valid() && 0 <= i < |containers|
      ensures ClaimsForContainers(containers[..i + 1])
              == ClaimsForContainers(containers[..i]) + ClaimsForMounts(containers[i].volumeMounts)
    {
      assert containers[..i + 1][..i] == containers[..i];
    }

    /** A mount gets a claim called `name` exactly when it uses `name` and that claim template is declared. */
    lemma MountGetsClaim(mount: VolumeMount, name: string)
      requires Valid()
      ensures HasClaim(ClaimsForMount(mount), name) <==> Declares(chi.volumeClaimTemplates, name) && mount.name == name
    {
      var t := GetVolumeClaimTemplate(mount.name);
      if t.Some? {
        assert ClaimsForMount(mount)[0].name == mount.name;
      }
    }

    /**
     * A list of mounts gets a claim called `name` exactly when one of the mounts uses
     * the volume `name` and a claim template of that name is declared.
     */
    lemma {:induction false} MountsGetClaim(mounts: seq<VolumeMount>, name: string)
      requires Valid()
      ensures HasClaim(ClaimsForMounts(mounts), name)
              <==> Declares(chi.volumeClaimTemplates, name) && exists k :: 0 <= k < |mounts| && mounts[k].name == name
    {
      if mounts != [] {
        var init := mounts[..|mounts| - 1];
        var last := mounts[|mounts| - 1];
        MountsGetClaim(init, name);
        HasClaimConcat(ClaimsForMounts(init), ClaimsForMount(last), name);
        MountGetsClaim(last, name);
        if exists k :: 0 <= k < |mounts| && mounts[k].name == name {
          var k :| 0 <= k < |mounts| && mounts[k].name == name;
          if k < |mounts| - 1 {
            assert init[k].name == name;
          }
        }
        if exists k :: 0 <= k < |init| && init[k].name == name {
          var k :| 0 <= k < |init| && init[k].name == name;
          assert mounts[k].name == name;
        }
      }
    }

    /**
     * The containers get a claim called `name` exactly when one of them mounts the volume
     * `name` and a claim template of that name is declared.
     */
    lemma {:induction false} ContainersGetClaim(containers: seq<Container>, name: string)
      requires Valid()
      ensures HasClaim(ClaimsForContainers(containers), name)
              <==> Declares(chi.volumeClaimTemplates, name) && exists k :: 0 <= k < |containers| && MountsName(containers[k], name)
    {
      if containers != [] {
        var init := containers[..|containers| - 1];
        var last := containers[|containers| - 1];
        ContainersGetClaim(init, name);
        MountsGetClaim(last.volumeMounts, name);
        HasClaimConcat(ClaimsForContainers(init), ClaimsForMounts(last.volumeMounts), name);
        if exists k :: 0 <= k < |containers| && MountsName(containers[k], name) {
          var k :| 0 <= k < |containers| && MountsName(containers[k], name);
          if k < |containers| - 1 {
            assert init[k] == containers[k];
          }
        }
        if exists k :: 0 <= k < |init| && MountsName(init[k], name) {
          var k :| 0 <= k < |init| && MountsName(init[k], name);
          assert containers[k] == init[k];
        }
      }
    }

    /**
     * The claim template offered as the implicit data volume: the indexed template named
     * like the FIRST catalog entry, when the catalog is not empty.
     */
    function DefaultVolumeClaimTemplate(): (t: Option<VolumeClaimTemplate>)
      reads this
      requires Valid()
      ensures t.Some? <==> |chi.volumeClaimTemplates| > 0
      ensures t.Some? ==> t.value.name == chi.volumeClaimTemplates[0].name
      ensures t.Some? ==> t.value == chi.volumeClaimTemplates[LastDeclared(chi.volumeClaimTemplates, t.value.name)]
    {
      if |chi.volumeClaimTemplates| == 0 then None
      else
        assert Declares(chi.volumeClaimTemplates, chi.volumeClaimTemplates[0].name);
        GetVolumeClaimTemplate(chi.volumeClaimTemplates[0].name)
    }

    /**
     * The stateful set with its claims set up: the claims of all its mounts appended, then
     * the implicit data volume. Fails when there is a claim template to offer but no
     * ClickHouse container to mount it into.
     */
    function WithVolumeClaims(sts: StatefulSet): (r: Result<StatefulSet, SynthesisError>)
      reads this
      requires Valid()
      ensures r.Err? <==> |chi.volumeClaimTemplates| > 0 && |Containers(sts)| <= ClickHouseContainerIndex
      ensures r.Err? ==> r.error == MissingPrimaryContainer(sts.meta.name)
    {
      var claimed := WithClaims(sts, sts.spec.volumeClaimTemplates + ClaimsForContainers(Containers(sts)));
      WithDefaultDataVolume(claimed, DefaultVolumeClaimTemplate())
    }

    /**
     * Sets up the claims of a stateful set: for each mount of each container whose name
     * the claim index knows, a copy of that claim; then the implicit data volume.
     */
    method SetupStatefulSetVolumeClaimTemplates(statefulSet: StatefulSet) returns (r: Result<StatefulSet, SynthesisError>)
      requires Valid()
      ensures r == WithVolumeClaims(statefulSet)
    {
      var s := AttachMountedClaims(statefulSet);
      var candidate := DefaultVolumeClaimTemplate();
      r := SetupDefaultDataVolume(s, candidate);
    }

    /**
     * The explicit half of the claim setup: walks every mount of every container and
     * appends a copy of the indexed claim template of its name, if there is one.
     */
    method AttachMountedClaims(statefulSet: StatefulSet) returns (s: StatefulSet)
      requires Valid()
      ensures s == WithClaims(statefulSet, statefulSet.spec.volumeClaimTemplates
                                           + ClaimsForContainers(Containers(statefulSet)))
    {
      var containers := Containers(statefulSet);
      s := statefulSet;
      var i := 0;
      while i < |containers|
        invariant 0 <= i <= |containers|
        invariant s == WithClaims(statefulSet, statefulSet.spec.volumeClaimTemplates
                                               + ClaimsForContainers(containers[..i]))
      {
        ClaimsForContainersStep(containers, i);
        s := AttachClaimsForMounts(s, containers[i].volumeMounts);
        i := i + 1;
      }
      assert containers[..i] == containers;
    }

    /** Appends, mount by mount, a copy of the indexed claim template each mount names. */
    method AttachClaimsForMounts(statefulSet: StatefulSet, volumeMounts: seq<VolumeMount>) returns (s: StatefulSet)
      requires Valid()
      ensures s == WithClaims(statefulSet, statefulSet.spec.volumeClaimTemplates + ClaimsForMounts(volumeMounts))
    {
      s := statefulSet;
      var j := 0;
      while j < |volumeMounts|
        invariant 0 <= j <= |volumeMounts|
        invariant s == WithClaims(statefulSet, statefulSet.spec.volumeClaimTemplates + ClaimsForMounts(volumeMounts[..j]))
      {
        ClaimsForMountsStep(volumeMounts, j);
        var volumeClaimTemplate := GetVolumeClaimTemplate(volumeMounts[j].name);
        if volumeClaimTemplate.Some? {
          s := AppendVolumeClaimTemplateFrom(s, volumeClaimTemplate.value);
        }
        j := j + 1;
      }
      assert volumeMounts[..j] == volumeMounts;
    }

    /** The stateful set of a replica, as the engine builds it. */
    function StatefulSetFor(replica: Replica): (r: Result<StatefulSet, SynthesisError>)
      reads this
      requires Valid()
    {
      var sts := NewStatefulSet(replica);
      WithVolumeClaims(sts.(spec := sts.spec.(template := PodTemplateFor(replica))))
    }

    /**
     * Every claim attached for the mounts of a list of containers is a copy of a declared
     * claim template, the last catalog entry of its name.
     */
    lemma {:induction false} ContainerClaimsAreCatalogCopies(containers: seq<Container>)
      requires Valid()
      ensures forall k :: 0 <= k < |ClaimsForContainers(containers)| ==>
        var claim := ClaimsForContainers(containers)[k];
        && Declares(chi.volumeClaimTemplates, claim.name)
        && claim == ClaimFrom(chi.volumeClaimTemplates[LastDeclared(chi.volumeClaimTemplates, claim.name)])
    {
      if containers != [] {
        ContainerClaimsAreCatalogCopies(containers[..|containers| - 1]);
        ClaimsAreCatalogCopies(containers[|containers| - 1].volumeMounts);
      }
    }

    /**
     * What the claim setup changes in a stateful set: nothing but its claims and the
     * ClickHouse container, which at most gets one mount of the offered claim template's
     * volume at the data directory.
     */
    lemma WithVolumeClaimsFrame(sts: StatefulSet)
      requires Valid()
      ensures var r := WithVolumeClaims(sts);
        r.Ok? ==>
          && r.value.meta == sts.meta
          && r.value.spec.replicas == sts.spec.replicas
          && r.value.spec.serviceName == sts.spec.serviceName
          && r.value.spec.selector == sts.spec.selector
          && r.value.spec.template.meta == sts.spec.template.meta
          && r.value.spec.template.spec.volumes == sts.spec.template.spec.volumes
          && |Containers(r.value)| == |Containers(sts)|
          && (forall k :: 0 <= k < |Containers(sts)| && k != ClickHouseContainerIndex ==>
                Containers(r.value)[k] == Containers(sts)[k])
          && (|Containers(sts)| > ClickHouseContainerIndex ==>
                var primary := Containers(sts)[ClickHouseContainerIndex];
                || Containers(r.value)[ClickHouseContainerIndex] == primary
                || (&& DefaultVolumeClaimTemplate().Some?
                    && Containers(r.value)[ClickHouseContainerIndex] == primary.(volumeMounts := primary.volumeMounts
                         + [VolumeMount(DefaultVolumeClaimTemplate().value.name, DirPathClickHouseData)])))
    {
      var claimed := WithClaims(sts, sts.spec.volumeClaimTemplates + ClaimsForContainers(Containers(sts)));
      match DefaultVolumeClaimTemplate()
      case None =>
      case Some(t) =>
        if |Containers(claimed)| > ClickHouseContainerIndex {
          DefaultDataVolumeRule(claimed, t);
        }
    }

    /**
     * The claims the claim setup leaves: the ones the stateful set had, then one copy of
     * the indexed claim template for each mount of each container that names one, then
     * possibly the offered claim template's claim for the implicit data volume.
     */
    lemma WithVolumeClaimsClaims(sts: StatefulSet)
      requires Valid()
      ensures var r := WithVolumeClaims(sts);
        r.Ok? ==>
          var claims := r.value.spec.volumeClaimTemplates;
          var explicit := sts.spec.volumeClaimTemplates + ClaimsForContainers(Containers(sts));
          || claims == explicit
          || (DefaultVolumeClaimTemplate().Some? && claims == explicit + [ClaimFrom(DefaultVolumeClaimTemplate().value)])
    {
      var claimed := WithClaims(sts, sts.spec.volumeClaimTemplates + ClaimsForContainers(Containers(sts)));
      match DefaultVolumeClaimTemplate()
      case None =>
      case Some(t) =>
        if |Containers(claimed)| > ClickHouseContainerIndex {
          DefaultDataVolumeRule(claimed, t);
        }
    }

    /**
     * The frame of a replica's stateful set: it fails exactly when there is a claim template
     * to offer and the resolved pod template has no container; otherwise it is named after
     * the replica, runs one pod, is governed by the replica's service, selects its own
     * pods, and has the resolved template's volumes followed by the three bundle volumes.
     */
    lemma StatefulSetForFrame(replica: Replica)
      requires Valid()
      ensures var r := StatefulSetFor(replica);
        r.Err? <==> |chi.volumeClaimTemplates| > 0 && |ResolvedPodTemplate(replica).spec.containers| == 0
      ensures var r := StatefulSetFor(replica);
        r.Ok? ==>
          var name := naming.statefulSetName(replica.address);
          && r.value.meta == ObjectMeta(name, replica.address.namespace, StatefulSetLabels(replica))
          && r.value.spec.replicas == 1
          && r.value.spec.serviceName == naming.statefulSetServiceName(replica.address)
          && r.value.spec.selector == map[AppLabel := name]
          && r.value.spec.template.meta == ObjectMeta(ResolvedPodTemplate(replica).name, "", PodLabels(replica))
          && Selects(r.value.spec.selector, r.value.spec.template.meta.labels)
          && r.value.spec.template.spec.volumes
             == ResolvedPodTemplate(replica).spec.volumes + ConfigMapVolumes(replica.address)
    {
      var initial := NewStatefulSet(replica);
      WithVolumeClaimsFrame(initial.(spec := initial.spec.(template := PodTemplateFor(replica))));
    }

    /**
     * The containers of a replica's stateful set: those of the resolved template, each
     * with the three bundle mounts after its own; the ClickHouse container may in addition
     * get one mount of the first claim template's volume at the data directory, and
     * nothing else about any container changes.
     */
    lemma StatefulSetForContainers(replica: Replica)
      requires Valid()
      ensures var r := StatefulSetFor(replica);
        r.Ok? ==>
          var cs := Containers(r.value);
          var t := ResolvedPodTemplate(replica).spec.containers;
          var mounts := ConfigMapMounts(replica.address);
          && |cs| == |t|
          && (forall k :: 0 <= k < |t| && k != ClickHouseContainerIndex ==>
                cs[k] == t[k].(volumeMounts := t[k].volumeMounts + mounts))
          && (|t| > ClickHouseContainerIndex ==>
                var primary := t[ClickHouseContainerIndex];
                || cs[ClickHouseContainerIndex] == primary.(volumeMounts := primary.volumeMounts + mounts)
                || (&& |chi.volumeClaimTemplates| > 0
                    && cs[ClickHouseContainerIndex] == primary.(volumeMounts := primary.volumeMounts + mounts
                         + [VolumeMount(chi.volumeClaimTemplates[0].name, DirPathClickHouseData)])))
    {
      var initial := NewStatefulSet(replica);
      WithVolumeClaimsFrame(initial.(spec := initial.spec.(template := PodTemplateFor(replica))));
    }

    /**
     * The claims of a replica's stateful set: one copy of the indexed claim template for
     * each mount of each container that names one, then possibly the first claim
     * template's claim for the implicit data volume.
     */
    lemma StatefulSetForClaims(replica: Replica)
      requires Valid()
      ensures var r := StatefulSetFor(replica);
        r.Ok? ==>
          var claims := r.value.spec.volumeClaimTemplates;
          var explicit := ClaimsForContainers(PodTemplateFor(replica).spec.containers);
          || claims == explicit
          || (&& |chi.volumeClaimTemplates| > 0
              && claims == explicit + [ClaimFrom(DefaultVolumeClaimTemplate().value)])
    {
      var initial := NewStatefulSet(replica);
      var sts := initial.(spec := initial.spec.(template := PodTemplateFor(replica)));
      WithVolumeClaimsClaims(sts);
      assert sts.spec.volumeClaimTemplates + ClaimsForContainers(Containers(sts))
          == ClaimsForContainers(PodTemplateFor(replica).spec.containers);
    }

    /**
     * Every claim of a replica's stateful set is a copy of a declared claim template, the
     * last catalog entry of its name.
     */
    lemma StatefulSetClaimsAreCatalogCopies(replica: Replica)
      requires Valid()
      ensures var r := StatefulSetFor(replica);
        r.Ok? ==>
          forall k :: 0 <= k < |r.value.spec.volumeClaimTemplates| ==>
            var claim := r.value.spec.volumeClaimTemplates[k];
            && Declares(chi.volumeClaimTemplates, claim.name)
            && claim == ClaimFrom(chi.volumeClaimTemplates[LastDeclared(chi.volumeClaimTemplates, claim.name)])
    {
      StatefulSetForClaims(replica);
      ContainerClaimsAreCatalogCopies(PodTemplateFor(replica).spec.containers);
      if |chi.volumeClaimTemplates| > 0 {
        assert Declares(chi.volumeClaimTemplates, chi.volumeClaimTemplates[0].name);
      }
    }

    /**
     * A replica naming no declared pod template runs the default one: the set always
     * succeeds, its only container exposes the canonical ports and is probed on /ping.
     */
    lemma UndeclaredTemplateFallsBack(replica: Replica)
      requires Valid()
      requires !Declares(chi.podTemplates, replica.podTemplate)
      ensures StatefulSetFor(replica).Ok?
      ensures var s := StatefulSetFor(replica).value;
        && |Containers(s)| == 1
        && s.spec.template.meta.name == naming.statefulSetName(replica.address)
        && Containers(s)[0].image == DefaultClickHouseDockerImage
        && Containers(s)[0].ports == CanonicalContainerPorts()
        && Containers(s)[0].readinessProbe == Some(HttpGetProbe("/ping", HttpPortName, 10, 10))
        && Containers(s)[0].volumeMounts[..3] == ConfigMapMounts(replica.address)
        && s.spec.template.spec.volumes == ConfigMapVolumes(replica.address)
    {
      StatefulSetForFrame(replica);
      StatefulSetForContainers(replica);
    }

    /** Creates the stateful set of one replica: the set itself, its pod template, its claims. */
    method CreateStatefulSetObject(replica: Replica) returns (r: Result<StatefulSet, SynthesisError>)
      requires Valid()
      ensures r == StatefulSetFor(replica)
    {
      var statefulSetName := naming.statefulSetName(replica.address);
      var serviceName := naming.statefulSetServiceName(replica.address);
      var statefulSet := StatefulSet(
        ObjectMeta(statefulSetName, replica.address.namespace, StatefulSetLabels(replica)),
        StatefulSetSpec(1, serviceName, map[AppLabel := statefulSetName], [],
                        PodTemplateSpec(ObjectMeta("", "", map[]), PodSpec([], []))));
      statefulSet := SetupStatefulSetPodTemplate(statefulSet, replica);
      r := SetupStatefulSetVolumeClaimTemplates(statefulSet);
    }

    /** What building the stateful set of each replica on its own yields, in walk order. */
    function StatefulSetResults(): (results: seq<Result<StatefulSet, SynthesisError>>)
      reads this
      requires Valid()
      ensures |results| == |chi.replicas|
      ensures forall i :: 0 <= i < |chi.replicas| ==> results[i] == StatefulSetFor(chi.replicas[i])
    {
      seq(|chi.replicas|, i reads this requires 0 <= i < |chi.replicas| && Valid() => StatefulSetFor(chi.replicas[i]))
    }

    /**
     * The stateful sets of the installation come one per replica and in walk order, each
     * the one its replica gets on its own; synthesis fails exactly when some replica's
     * stateful set does, and then with the failure of the first such replica.
     */
    lemma StatefulSetsSpec()
      requires Valid()
      ensures var r := Collect(StatefulSetResults());
        r.Ok? <==> forall i :: 0 <= i < |chi.replicas| ==> StatefulSetFor(chi.replicas[i]).Ok?
      ensures var r := Collect(StatefulSetResults());
        r.Ok? ==> |r.value| == |chi.replicas|
                  && forall i :: 0 <= i < |chi.replicas| ==> StatefulSetFor(chi.replicas[i]) == Ok(r.value[i])
      ensures var r := Collect(StatefulSetResults());
        r.Err? ==> exists i :: 0 <= i < |chi.replicas| && StatefulSetFor(chi.replicas[i]) == Err(r.error)
                               && forall j :: 0 <= j < i ==> StatefulSetFor(chi.replicas[j]).Ok?
    {
      CollectSpec(StatefulSetResults());
    }

    /** One stateful set per replica, in walk order; the first failure stops synthesis. */
    method CreateStatefulSetObjects() returns (r: Result<seq<StatefulSet>, SynthesisError>)
      requires Valid()
      ensures r == Collect(StatefulSetResults())
    {
      ghost var results := StatefulSetResults();
      var list := [];
      var i := 0;
      PrependToNothing(Collect(results));
      assert results[0..] == results;
      while i < |chi.replicas|
        invariant 0 <= i <= |chi.replicas|
        invariant Collect(results) == Prepend(list, Collect(results[i..]))
      {
        var statefulSet := CreateStatefulSetObject(chi.replicas[i]);
        assert results[i..][0] == statefulSet;
        assert results[i..][1..] == results[i + 1..];
        if statefulSet.Err? {
          return Err(statefulSet.error);
        }
        PrependTwice(list, [statefulSet.value], Collect(results[i + 1..]));
        list := list + [statefulSet.value];
        i := i + 1;
      }
      PrependNothing(list);
      r := Ok(list);
    }

    // --------------------------------------------------------------------------
    // How the objects fit together

    /** A replica's service selects exactly the pods of the stateful sets named like the replica's own. */
    lemma ReplicaServiceSelection(replica: Replica, other: Replica)
      ensures Selects(ServiceObjectPod(replica).spec.selector, PodLabels(other))
              <==> naming.statefulSetName(replica.address) == naming.statefulSetName(other.address)
    {
      assert PodLabels(other)[AppLabel] == naming.statefulSetName(other.address);
    }

    /** The installation-wide service selects exactly the pods of the replicas owned by the installation. */
    lemma ChiServiceSelection(serviceName: string, replica: Replica)
      ensures Selects(ServiceObjectChi(serviceName).spec.selector, PodLabels(replica))
              <==> replica.address.chiName == chi.name
    {
      assert PodLabels(replica)[ChiGeneratedLabel] == replica.address.chiName;
    }

    /**
     * The objects of one replica of a well-formed installation agree with each other:
     * its stateful set is owned by the operator and governed by the replica's service;
     * that service and the installation-wide one both select the set's pods; and the
     * last three pod volumes are those of the two installation-wide config maps and of
     * the replica's own.
     */
    lemma ReplicaObjectsAgree(i: int)
      requires Valid() && WellFormed(chi) && 0 <= i < |chi.replicas|
      requires StatefulSetFor(chi.replicas[i]).Ok?
      ensures var replica := chi.replicas[i];
        var sts := StatefulSetFor(replica).value;
        var volumes := sts.spec.template.spec.volumes;
        && IsChopGeneratedObject(sts.meta)
        && ServiceObjectPod(replica).meta.name == sts.spec.serviceName
        && Selects(ServiceObjectPod(replica).spec.selector, sts.spec.template.meta.labels)
        && Selects(ServiceObjectChi(naming.chiServiceName(chi)).spec.selector, sts.spec.template.meta.labels)
        && |volumes| >= 3
        && volumes[|volumes| - 3..] == [CreateVolumeObjectConfigMap(naming.configMapCommonName(chi.name)),
                                        CreateVolumeObjectConfigMap(naming.configMapCommonUsersName(chi.name)),
                                        CreateVolumeObjectConfigMap(PodConfigMap(replica).meta.name)]
    {
      var replica := chi.replicas[i];
      StatefulSetForFrame(replica);
      ReplicaServiceSelection(replica, replica);
      ChiServiceSelection(naming.chiServiceName(chi), replica);
      var volumes := StatefulSetFor(replica).value.spec.template.spec.volumes;
      var own := ResolvedPodTemplate(replica).spec.volumes;
      assert volumes[|volumes| - 3..] == (own + ConfigMapVolumes(replica.address))[|own|..];
    }

    /** No claim is attached for mounts none of which names a declared claim template. */
    lemma NoClaimsForUndeclaredMounts(mounts: seq<VolumeMount>)
      requires Valid()
      requires forall k :: 0 <= k < |mounts| ==> !Declares(chi.volumeClaimTemplates, mounts[k].name)
      ensures ClaimsForMounts(mounts) == []
    {
      var claims := ClaimsForMounts(mounts);
      if claims != [] {
        ClaimsAreCatalogCopies(mounts);
        MountsGetClaim(mounts, claims[0].name);
      }
    }

    /**
     * When the ClickHouse container already mounts the offered claim template by name,
     * the claim setup leaves the containers alone and the claim comes from the mount.
     */
    lemma ExplicitDataMountKept(sts: StatefulSet)
      requires Valid()
      requires |chi.volumeClaimTemplates| > 0 && |Containers(sts)| > ClickHouseContainerIndex
      requires MountsName(Containers(sts)[ClickHouseContainerIndex], chi.volumeClaimTemplates[0].name)
      ensures WithVolumeClaims(sts).Ok?
      ensures Containers(WithVolumeClaims(sts).value) == Containers(sts)
      ensures HasClaim(WithVolumeClaims(sts).value.spec.volumeClaimTemplates, chi.volumeClaimTemplates[0].name)
    {
      var name := chi.volumeClaimTemplates[0].name;
      assert Declares(chi.volumeClaimTemplates, name);
      ContainersGetClaim(Containers(sts), name);
      HasClaimConcat(sts.spec.volumeClaimTemplates, ClaimsForContainers(Containers(sts)), name);
      var claimed := WithClaims(sts, sts.spec.volumeClaimTemplates + ClaimsForContainers(Containers(sts)));
      DefaultDataVolumeRule(claimed, DefaultVolumeClaimTemplate().value);
    }

    /**
     * When the ClickHouse container uses none of the offered names and nothing is at the
     * data directory, and no claim is attached otherwise, the claim setup mounts the offered
     * template there and attaches its claim as the only one.
     */
    lemma ImplicitDataMountAdded(sts: StatefulSet)
      requires Valid()
      requires |chi.volumeClaimTemplates| > 0 && |Containers(sts)| > ClickHouseContainerIndex
      requires NeedsDefaultDataMount(Containers(sts)[ClickHouseContainerIndex], chi.volumeClaimTemplates[0].name)
      requires sts.spec.volumeClaimTemplates + ClaimsForContainers(Containers(sts)) == []
      ensures WithVolumeClaims(sts).Ok?
      ensures var primary := Containers(sts)[ClickHouseContainerIndex];
        Containers(WithVolumeClaims(sts).value)[ClickHouseContainerIndex]
        == primary.(volumeMounts := primary.volumeMounts + [VolumeMount(chi.volumeClaimTemplates[0].name, DirPathClickHouseData)])
      ensures WithVolumeClaims(sts).value.spec.volumeClaimTemplates == [ClaimFrom(DefaultVolumeClaimTemplate().value)]
    {
      var claimed := WithClaims(sts, []);
      DefaultDataVolumeRule(claimed, DefaultVolumeClaimTemplate().value);
    }

    /**
     * The implicit data volume: a replica running the default template, in an installation
     * with claim templates none of which is named like a config map, gets the first claim
     * template mounted at the data directory of its only container, after the bundle
     * mounts, and that template's claim as its only claim.
     */
    lemma ImplicitDataVolume(replica: Replica)
      requires Valid()
      requires !Declares(chi.podTemplates, replica.podTemplate)
      requires |chi.volumeClaimTemplates| > 0
      requires forall k :: 0 <= k < 3 ==> !Declares(chi.volumeClaimTemplates, ConfigMapMounts(replica.address)[k].name)
      ensures StatefulSetFor(replica).Ok?
      ensures var s := StatefulSetFor(replica).value;
        && |Containers(s)| == 1
        && Containers(s)[0].volumeMounts
           == ConfigMapMounts(replica.address) + [VolumeMount(chi.volumeClaimTemplates[0].name, DirPathClickHouseData)]
        && s.spec.volumeClaimTemplates == [ClaimFrom(DefaultVolumeClaimTemplate().value)]
    {
      var initial := NewStatefulSet(replica);
      var sts := initial.(spec := initial.spec.(template := PodTemplateFor(replica)));
      var mounts := ConfigMapMounts(replica.address);
      var primary := Containers(sts)[0];
      assert primary.volumeMounts == mounts;
      NoClaimsForUndeclaredMounts(mounts);
      assert Containers(sts) == [primary];
      assert Containers(sts)[..0] == [];
      assert ClaimsForContainers(Containers(sts)) == ClaimsForMounts(mounts);
      var name := chi.volumeClaimTemplates[0].name;
      assert Declares(chi.volumeClaimTemplates, name);
      assert !MountsName(primary, name);
      ImplicitDataMountAdded(sts);
      StatefulSetForFrame(replica);
    }

    /**
     * The explicit data volume: when the ClickHouse container of the resolved template
     * already mounts the first claim template by name, nothing is mounted implicitly, and
     * the stateful set gets that claim through the mount.
     */
    lemma ExplicitDataVolume(replica: Replica)
      requires Valid()
      requires |chi.volumeClaimTemplates| > 0
      requires |ResolvedPodTemplate(replica).spec.containers| > ClickHouseContainerIndex
      requires MountsName(ResolvedPodTemplate(replica).spec.containers[ClickHouseContainerIndex], chi.volumeClaimTemplates[0].name)
      ensures StatefulSetFor(replica).Ok?
      ensures var s := StatefulSetFor(replica).value;
        var primary := ResolvedPodTemplate(replica).spec.containers[ClickHouseContainerIndex];
        && Containers(s)[ClickHouseContainerIndex]
           == primary.(volumeMounts := primary.volumeMounts + ConfigMapMounts(replica.address))
        && HasClaim(s.spec.volumeClaimTemplates, chi.volumeClaimTemplates[0].name)
    {
      var initial := NewStatefulSet(replica);
      var sts := initial.(spec := initial.spec.(template := PodTemplateFor(replica)));
      var name := chi.volumeClaimTemplates[0].name;
      var resolved := ResolvedPodTemplate(replica).spec.containers[ClickHouseContainerIndex];
      var primary := Containers(sts)[ClickHouseContainerIndex];
      var k :| 0 <= k < |resolved.volumeMounts| && resolved.volumeMounts[k].name == name;
      assert primary.volumeMounts[k].name == name;
      ExplicitDataMountKept(sts);
    }

    /**
     * The whole synthesis run: the services (the installation-wide one, then one per
     * replica), the config maps (the two installation-wide ones, then one per replica) and
     * the stateful sets (one per replica), all in walk order; it fails exactly when the
     * stateful sets do.
     */
    method CreateObjects() returns (r: Result<Objects, SynthesisError>)
      requires Valid()
      ensures r.Ok? <==> Collect(StatefulSetResults()).Ok?
      ensures r.Err? ==> r.error == Collect(StatefulSetResults()).error
      ensures r.Ok? ==> r.value.statefulSets == Collect(StatefulSetResults()).value
      ensures r.Ok? ==>
        && |r.value.services| == 1 + |chi.replicas|
        && r.value.services[0] == ServiceObjectChi(naming.chiServiceName(chi))
        && forall i :: 0 <= i < |chi.replicas| ==> r.value.services[1 + i] == ServiceObjectPod(chi.replicas[i])
      ensures r.Ok? ==>
        && |r.value.configMaps| == 2 + |chi.replicas|
        && r.value.configMaps[0] == CommonConfigMap()
        && r.value.configMaps[1] == CommonUsersConfigMap()
        && (forall i :: 0 <= i < |chi.replicas| ==> r.value.configMaps[2 + i] == PodConfigMap(chi.replicas[i]))
        && forall i :: 0 <= i < |r.value.configMaps| ==>
             IsChopGeneratedObject(r.value.configMaps[i].meta) && AllNonEmpty(r.value.configMaps[i].data)
    {
      var services := CreateServiceObjects();
      var configMaps := CreateConfigMapObjects();
      var statefulSets := CreateStatefulSetObjects();
      if statefulSets.Err? {
        return Err(statefulSets.error);
      }
      r := Ok(Objects(services, configMaps, statefulSets.value));
    }
  }
}
