/**
 * The input side of the engine: a ClickHouse installation (its replicas in walk
 * order and its two template catalogs), the operator's extra configuration files,
 * and the collaborators the engine calls but whose code is not modelled: the
 * naming functions and the XML content generators.
 */
module Chi {
  import opened Kube

  /** The coordinates of one replica in the installation's topology. */
  datatype Address = Address(
    namespace: string,
    chiName: string,
    clusterName: string,
    clusterIndex: int,
    replicaIndex: int)

  /**
   * One replica: its address, the name of the pod template it asks for ("" when it
   * names none) and the fingerprint of its ZooKeeper configuration.
   */
  datatype Replica = Replica(address: Address, podTemplate: string, zkFingerprint: string)

  /** A named entry of a template catalog. */
  datatype Template<S> = Template(name: string, spec: S)

  type PodTemplate = Template<PodSpec>

  type VolumeClaimTemplate = Template<ClaimSpec>

  /**
   * A ClickHouse installation. `replicas` lists every replica of every shard of every
   * cluster in walk order: clusters, then shards, then replicas, each in declared order.
   */
  datatype Installation = Installation(
    name: string,
    namespace: string,
    replicas: seq<Replica>,
    podTemplates: seq<PodTemplate>,
    volumeClaimTemplates: seq<VolumeClaimTemplate>)

  /** The installation's replicas all belong to it: same owner name and namespace. */
  predicate WellFormed(chi: Installation)
  {
    forall i :: 0 <= i < |chi.replicas| ==>
      chi.replicas[i].address.chiName == chi.name && chi.replicas[i].address.namespace == chi.namespace
  }

  /** Operator-supplied extra files (file name to content) for the three bundle scopes. */
  datatype Config = Config(
    chCommonConfigs: map<string, string>,
    chUsersConfigs: map<string, string>,
    chPodConfigs: map<string, string>)

  /** The deterministic naming functions, given as values. */
  datatype Naming = Naming(
    chiServiceName: Installation -> string,
    configMapCommonName: string -> string,
    configMapCommonUsersName: string -> string,
    configMapPodName: Address -> string,
    statefulSetName: Address -> string,
    statefulSetServiceName: Address -> string)

  /** The XML content generators, given as values; "" means there is nothing to render. */
  datatype Generators = Generators(
    remoteServers: Installation -> string,
    zookeeper: Installation -> string,
    settings: Installation -> string,
    listen: Installation -> string,
    users: Installation -> string,
    quotas: Installation -> string,
    profiles: Installation -> string,
    hostMacros: Replica -> string)
}
