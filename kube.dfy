/**
 * The part of the Kubernetes object model that the object-synthesis engine reads
 * or writes: object metadata, config maps, services, containers with their volume
 * mounts, pod specifications, volume claims and stateful sets. Fields the engine
 * never touches are left out.
 */
module Kube {
  import opened Wrappers

  /** A label map, also used for selectors: label key to label value. */
  type Labels = map<string, string>

  datatype ObjectMeta = ObjectMeta(name: string, namespace: string, labels: Labels)

  /** A config map; `data` maps a file name to the content of that file. */
  datatype ConfigMap = ConfigMap(meta: ObjectMeta, data: map<string, string>)

  datatype ServicePort = ServicePort(name: string, port: int)

  datatype ServiceType = LoadBalancer | ClusterIP

  /** `clusterIP` is "None" for a headless service and "" when left to the platform. */
  datatype ServiceSpec = ServiceSpec(
    ports: seq<ServicePort>,
    selector: Labels,
    clusterIP: string,
    serviceType: ServiceType)

  datatype Service = Service(meta: ObjectMeta, spec: ServiceSpec)

  datatype VolumeMount = VolumeMount(name: string, mountPath: string)

  /** Where a pod volume comes from: a config map (by name) or anything else. */
  datatype VolumeSource = ConfigMapVolume(configMapName: string) | OtherVolume(kind: string)

  datatype Volume = Volume(name: string, source: VolumeSource)

  datatype ContainerPort = ContainerPort(name: string, containerPort: int)

  /** A readiness probe doing an HTTP GET of `path` on the port named `port`. */
  datatype Probe = HttpGetProbe(path: string, port: string, initialDelaySeconds: int, periodSeconds: int)

  datatype Container = Container(
    name: string,
    image: string,
    ports: seq<ContainerPort>,
    readinessProbe: Option<Probe>,
    volumeMounts: seq<VolumeMount>)

  datatype PodSpec = PodSpec(containers: seq<Container>, volumes: seq<Volume>)

  datatype PodTemplateSpec = PodTemplateSpec(meta: ObjectMeta, spec: PodSpec)

  /** The storage request of a persistent volume claim. */
  datatype ClaimSpec = ClaimSpec(storageClassName: string, accessModes: seq<string>, storage: string)

  datatype PersistentVolumeClaim = PersistentVolumeClaim(name: string, spec: ClaimSpec)

  /** `replicas` is the number of pods the stateful set runs. */
  datatype StatefulSetSpec = StatefulSetSpec(
    replicas: int,
    serviceName: string,
    selector: Labels,
    volumeClaimTemplates: seq<PersistentVolumeClaim>,
    template: PodTemplateSpec)

  datatype StatefulSet = StatefulSet(meta: ObjectMeta, spec: StatefulSetSpec)
}
