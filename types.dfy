/**
 * The data the operator reads and writes: the Druid custom resource with its
 * node specs, and the Kubernetes objects synthesized from them. Kubernetes
 * pointers and maps that may be nil are `Option`s; list elements that the
 * operator only copies (tolerations, environment variables, ...) are small
 * stand-in records.
 */
module Types {
  import opened Wrappers

  /** Go's int32 (replica counts, ports). */
  newtype int32 = x: int | -0x8000_0000 <= x < 0x8000_0000

  type StringMap = map<string, string>

  // ----- stand-ins for Kubernetes list elements that are only copied -----

  datatype EnvVar = EnvVar(name: string, value: string)
  datatype Toleration = Toleration(key: string, operator: string, value: string, effect: string)
  datatype Affinity = Affinity(nodeAffinity: string, podAffinity: string, podAntiAffinity: string)
  datatype LocalObjectReference = LocalObjectReference(name: string)
  datatype ResourceRequirements = ResourceRequirements(limits: StringMap, requests: StringMap)
  datatype PodSecurityContext = PodSecurityContext(runAsUser: Option<int>, fsGroup: Option<int>)
  datatype PersistentVolumeClaim = PersistentVolumeClaim(name: string, storageClassName: string, storage: string)
  datatype VolumeSource = ConfigMapVolume(configMapName: string) | OtherVolume(description: string)
  datatype Volume = Volume(name: string, source: VolumeSource)
  datatype VolumeMount = VolumeMount(name: string, mountPath: string, readOnly: bool, subPath: string)

  // ----- the Druid custom resource -----

  datatype NodeService = NodeService(port: int32, targetPort: int32, serviceType: string)

  datatype NodeIngress = NodeIngress(
    enabled: bool,
    hostname: string,
    path: string,
    tlsEnabled: bool,
    tlsSecretName: string,
    annotations: Option<StringMap>)

  /** One node group of the cluster. */
  datatype NodeSpec = NodeSpec(
    name: string,
    nodeType: string,
    replicas: int32,
    mountPath: string,
    runtimeProperties: string,
    service: NodeService,
    ingress: NodeIngress,
    labels: Option<StringMap>,
    annotations: Option<StringMap>,
    env: seq<EnvVar>,
    tolerations: seq<Toleration>,
    affinity: Option<Affinity>,
    nodeSelector: Option<StringMap>,
    volumes: seq<Volume>,
    volumeMounts: seq<VolumeMount>,
    volumeClaimTemplates: seq<PersistentVolumeClaim>,
    resources: ResourceRequirements,
    securityContext: Option<PodSecurityContext>,
    maxUnavailable: int32)

  /** A node group together with its key in the spec's node map. */
  type KeyAndNodeSpec = (string, NodeSpec)

  /**
   * The cluster spec. `nodes` stands for the Go map from key to node spec:
   * its order is the (otherwise unspecified) order in which Go ranges over it.
   */
  datatype DruidSpec = DruidSpec(
    image: string,
    startScript: string,
    commonRuntimeProperties: string,
    commonConfigMountPath: string,
    env: seq<EnvVar>,
    tolerations: seq<Toleration>,
    affinity: Option<Affinity>,
    imagePullSecrets: seq<LocalObjectReference>,
    nodes: seq<KeyAndNodeSpec>)

  /** The keys of a node map are distinct. */
  ghost predicate DistinctKeys(nodes: seq<KeyAndNodeSpec>) {
    forall i, j | 0 <= i < j < |nodes| :: nodes[i].0 != nodes[j].0
  }

  // ----- object metadata -----

  datatype TypeMeta = TypeMeta(kind: string, apiVersion: string)

  datatype OwnerReference = OwnerReference(
    apiVersion: string, kind: string, name: string, controller: bool, blockOwnerDeletion: bool)

  datatype ObjectMeta = ObjectMeta(
    name: string,
    namespace: string,
    labels: StringMap,
    annotations: StringMap,
    ownerReferences: seq<OwnerReference>,
    finalizers: seq<string>,
    deletionTimestamp: Option<int>,
    resourceVersion: string)

  /** Metadata with only a name, a namespace and labels set, as the builders write it. */
  function NamedMeta(name: string, namespace: string, labels: StringMap): (m: ObjectMeta)
    ensures m.name == name && m.namespace == namespace && m.labels == labels
    ensures m.annotations == map[] && m.ownerReferences == [] && m.finalizers == []
  {
    ObjectMeta(name, namespace, labels, map[], [], [], None, "")
  }

  datatype Druid = Druid(typeMeta: TypeMeta, meta: ObjectMeta, spec: DruidSpec)

  // ----- Kubernetes objects synthesized by the operator -----

  /** intstr.IntOrString */
  datatype IntOrString = IntValue(intVal: int32) | StringValue(strVal: string)

  datatype LabelSelector = LabelSelector(matchLabels: StringMap)

  datatype ContainerPort = ContainerPort(name: string, containerPort: int32, protocol: string)

  datatype Container = Container(
    name: string,
    image: string,
    command: seq<string>,
    resources: ResourceRequirements,
    env: seq<EnvVar>,
    terminationMessagePath: string,
    terminationMessagePolicy: string,
    ports: seq<ContainerPort>,
    volumeMounts: seq<VolumeMount>)

  datatype PodSpec = PodSpec(
    nodeSelector: Option<StringMap>,
    tolerations: seq<Toleration>,
    affinity: Option<Affinity>,
    volumes: seq<Volume>,
    imagePullSecrets: seq<LocalObjectReference>,
    securityContext: Option<PodSecurityContext>,
    containers: seq<Container>)

  datatype PodTemplateSpec = PodTemplateSpec(meta: ObjectMeta, spec: PodSpec)

  datatype WorkloadStatus = WorkloadStatus(replicas: int32, readyReplicas: int32, currentReplicas: int32)

  datatype StatefulSetUpdateStrategy = StatefulSetUpdateStrategy(strategyType: string)

  datatype StatefulSetSpec = StatefulSetSpec(
    serviceName: string,
    selector: LabelSelector,
    replicas: int32,
    template: PodTemplateSpec,
    podManagementPolicy: string,
    updateStrategy: StatefulSetUpdateStrategy,
    volumeClaimTemplates: seq<PersistentVolumeClaim>)

  datatype StatefulSet = StatefulSet(typeMeta: TypeMeta, meta: ObjectMeta, spec: StatefulSetSpec, status: WorkloadStatus)

  datatype RollingUpdateDeployment = RollingUpdateDeployment(maxUnavailable: IntOrString, maxSurge: IntOrString)

  datatype DeploymentStrategy = DeploymentStrategy(strategyType: string, rollingUpdate: Option<RollingUpdateDeployment>)

  datatype DeploymentSpec = DeploymentSpec(
    selector: LabelSelector,
    replicas: int32,
    template: PodTemplateSpec,
    strategy: DeploymentStrategy)

  datatype Deployment = Deployment(typeMeta: TypeMeta, meta: ObjectMeta, spec: DeploymentSpec, status: WorkloadStatus)

  datatype ConfigMap = ConfigMap(typeMeta: TypeMeta, meta: ObjectMeta, data: StringMap, binaryData: map<string, seq<bv8>>)

  datatype ServicePort = ServicePort(port: int32, targetPort: IntOrString, nodePort: int32)

  datatype ServiceSpec = ServiceSpec(ports: seq<ServicePort>, selector: StringMap, clusterIP: string, serviceType: string)

  datatype ServiceStatus = ServiceStatus(loadBalancerIngress: seq<string>)

  datatype Service = Service(typeMeta: TypeMeta, meta: ObjectMeta, spec: ServiceSpec, status: ServiceStatus)

  datatype PodDisruptionBudgetSpec = PodDisruptionBudgetSpec(selector: LabelSelector, maxUnavailable: IntOrString)

  datatype PodDisruptionBudgetStatus = PodDisruptionBudgetStatus(currentHealthy: int32, desiredHealthy: int32)

  datatype PodDisruptionBudget = PodDisruptionBudget(
    typeMeta: TypeMeta, meta: ObjectMeta, spec: PodDisruptionBudgetSpec, status: PodDisruptionBudgetStatus)

  datatype IngressTLS = IngressTLS(hosts: seq<string>, secretName: string)

  datatype IngressBackend = IngressBackend(serviceName: string, servicePort: IntOrString)

  datatype HTTPIngressPath = HTTPIngressPath(path: string, backend: IngressBackend)

  /** `http` is the rule's HTTP value, a pointer in Go. */
  datatype IngressRule = IngressRule(host: string, http: Option<seq<HTTPIngressPath>>)

  /** `tls` is nil (None) or a slice. */
  datatype IngressSpec = IngressSpec(tls: Option<seq<IngressTLS>>, rules: seq<IngressRule>)

  datatype IngressStatus = IngressStatus(loadBalancerIngress: seq<string>)

  datatype Ingress = Ingress(typeMeta: TypeMeta, meta: ObjectMeta, spec: IngressSpec, status: IngressStatus)

  /** The label set {app: druid, type: NodeType, name: Name} every per-node object carries. */
  function NodeLabels(cc: NodeSpec): (m: StringMap)
    ensures m.Keys == {"app", "type", "name"}
    ensures m["app"] == "druid" && m["type"] == cc.nodeType && m["name"] == cc.name
  {
    map["app" := "druid", "type" := cc.nodeType, "name" := cc.name]
  }

  /** A Go pointer to a value of type T that callee code can update in place. */
  class Ref<T> {
    var value: T

    constructor (v: T)
      ensures value == v
    {
      value := v;
    }
  }
}
