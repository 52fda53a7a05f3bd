/**
 * The parts of the Kubernetes API objects that the workload builder reads or writes,
 * reduced to records. A Go pointer field is an `Option`, a Go slice a `seq`, a Go map a `map`.
 * The deployment record also carries the fields the builder uses from the stateful-set
 * type (volume claim templates, pod management policy, readiness counters).
 */
module KubeTypes {
  import opened Wrappers

  /** `metav1.OwnerReference`: a pointer to the object that owns this one. */
  datatype OwnerReference = OwnerReference(
    apiVersion: string,
    kind: string,
    name: string,
    uid: string,
    controller: Option<bool>)

  /** `metav1.LabelSelectorRequirement`. */
  datatype LabelSelectorRequirement = LabelSelectorRequirement(key: string, operator: string, values: seq<string>)

  /** `metav1.LabelSelector`. */
  datatype LabelSelector = LabelSelector(
    matchLabels: map<string, string>,
    matchExpressions: seq<LabelSelectorRequirement>)

  /** The zero `metav1.LabelSelector{}`. */
  const EmptySelector: LabelSelector := LabelSelector(map[], [])

  /** `corev1.VolumeMount`. */
  datatype VolumeMount = VolumeMount(name: string, mountPath: string, subPath: string, readOnly: bool)

  /** `corev1.ConfigMapVolumeSource`, reduced to the referenced config map. */
  datatype ConfigMapVolumeSource = ConfigMapVolumeSource(name: string)

  /** `corev1.SecretVolumeSource`; `defaultMode` is the `*int32` file mode. */
  datatype SecretVolumeSource = SecretVolumeSource(secretName: string, defaultMode: Option<int>)

  /** `corev1.EmptyDirVolumeSource{}`: default medium and size. */
  datatype EmptyDirVolumeSource = DefaultEmptyDir

  /** `corev1.VolumeSource`: at most one source is meant to be set. */
  datatype VolumeSource = VolumeSource(
    configMap: Option<ConfigMapVolumeSource>,
    secret: Option<SecretVolumeSource>,
    emptyDir: Option<EmptyDirVolumeSource>)

  const NoVolumeSource: VolumeSource := VolumeSource(None, None, None)

  /** `corev1.Volume`. */
  datatype Volume = Volume(name: string, source: VolumeSource)

  /** `corev1.Container`, reduced to what the volume helpers touch. */
  datatype Container = Container(name: string, image: string, volumeMounts: seq<VolumeMount>)

  /** `corev1.PodTemplateSpec`, reduced to labels, containers and volumes. */
  datatype PodTemplateSpec = PodTemplateSpec(
    labels: map<string, string>,
    containers: seq<Container>,
    volumes: seq<Volume>)

  const EmptyPodTemplate: PodTemplateSpec := PodTemplateSpec(map[], [], [])

  /** `corev1.PersistentVolumeClaim`, reduced to a few fields; `name` is the lookup key. */
  datatype PersistentVolumeClaim = PersistentVolumeClaim(
    name: string,
    labels: map<string, string>,
    accessModes: seq<string>,
    storageRequest: string)

  /** The zero `corev1.PersistentVolumeClaim{}` appended by the volume-claim builder. */
  const EmptyClaim: PersistentVolumeClaim := PersistentVolumeClaim("", map[], [], "")

  /** `appsv1.RollingUpdateDeployment`, with the int-or-string amounts reduced to ints. */
  datatype RollingUpdateDeployment = RollingUpdateDeployment(maxUnavailable: Option<int>, maxSurge: Option<int>)

  /** `appsv1.DeploymentStrategyType` is a string. */
  const RollingUpdateDeploymentStrategyType: string := "RollingUpdate"

  /** `appsv1.DeploymentStrategy`. */
  datatype DeploymentStrategy = DeploymentStrategy(strategyType: string, rollingUpdate: Option<RollingUpdateDeployment>)

  const EmptyStrategy: DeploymentStrategy := DeploymentStrategy("", None)

  /** `metav1.ObjectMeta`, reduced to the fields the builder and readiness check use. */
  datatype ObjectMeta = ObjectMeta(
    name: string,
    namespace: string,
    labels: map<string, string>,
    annotations: map<string, string>,
    ownerReferences: seq<OwnerReference>,
    generation: int)

  /** The desired-state part of the workload. */
  datatype DeploymentSpec = DeploymentSpec(
    replicas: Option<int>,
    selector: Option<LabelSelector>,
    template: PodTemplateSpec,
    strategy: DeploymentStrategy,
    revisionHistoryLimit: Option<int>,
    volumeClaimTemplates: seq<PersistentVolumeClaim>,
    podManagementPolicy: string)

  /** The observed-state part of the workload. */
  datatype DeploymentStatus = DeploymentStatus(updatedReplicas: int, readyReplicas: int, observedGeneration: int)

  /** One workload object, as the Go struct value `appsv1.Deployment`. */
  datatype Deployment = Deployment(meta: ObjectMeta, spec: DeploymentSpec, status: DeploymentStatus)

  /** The zero value `appsv1.Deployment{}`. */
  const EmptyDeployment: Deployment :=
    Deployment(
      ObjectMeta("", "", map[], map[], [], 0),
      DeploymentSpec(None, None, EmptyPodTemplate, EmptyStrategy, None, [], ""),
      DeploymentStatus(0, 0, 0))
}
