/**
 * The StatefulSet and Deployment builders of pkg/controller/nodes/objects.go:
 * naming, the shared label set, the pod template and pod spec, and the list
 * helpers that put the cluster-wide defaults, the node's settings and the
 * two configuration volumes together.
 */
module Objects {
  import opened Wrappers
  import opened Types
  import opened ConfigMaps

  // ----- naming, labels, annotations, command, affinity -----

  /** `makeNodeName`: "druid-<Name>". */
  function NodeName(cc: NodeSpec): (r: string)
    ensures |r| == |cc.name| + 6 && r[..6] == "druid-" && r[6..] == cc.name
  {
    "druid-" + cc.name
  }

  /** Node names are distinct exactly when the node spec names are. */
  lemma NodeNameIffSameName(a: NodeSpec, b: NodeSpec)
    ensures NodeName(a) == NodeName(b) <==> a.name == b.name
  {
    if NodeName(a) == NodeName(b) {
      assert a.name == NodeName(a)[6..];
      assert b.name == NodeName(b)[6..];
    }
  }

  /** `getAnnotations`: the node's annotations verbatim, {app: druid} when they are nil. */
  function PodAnnotations(cc: NodeSpec): (m: StringMap)
    ensures cc.annotations.None? ==> m == map["app" := "druid"]
    ensures cc.annotations.Some? ==> m == cc.annotations.value
  {
    match cc.annotations
    case None => map["app" := "druid"]
    case Some(a) => a
  }

  /** `getCommand`: the start script, then the node type as its one argument. */
  function Command(cc: NodeSpec, c: Druid): (cmd: seq<string>)
    ensures |cmd| == 2 && cmd[0] == c.spec.startScript && cmd[1] == cc.nodeType
  {
    [c.spec.startScript, cc.nodeType]
  }

  /** `getAffinity`: the node's affinity when it has one, else the cluster's. */
  function AffinityOf(cc: NodeSpec, c: Druid): (a: Option<Affinity>)
    ensures cc.affinity.Some? ==> a == cc.affinity
    ensures cc.affinity.None? ==> a == c.spec.affinity
  {
    if cc.affinity.Some? then cc.affinity else c.spec.affinity
  }

  /** `getRollingUpdateStrategy`: the integer 25 (not a percentage) for both bounds. */
  function RollingUpdateStrategy(): (r: RollingUpdateDeployment)
    ensures r.maxUnavailable == IntValue(25) && r.maxSurge == IntValue(25)
  {
    RollingUpdateDeployment(IntValue(25), IntValue(25))
  }

  // ----- the list helpers, each a loop in the source -----

  /** The mount of the node's own configuration volume. */
  function NodeConfigMount(cc: NodeSpec): VolumeMount {
    VolumeMount(ConfigMapName(cc), cc.mountPath, false, "")
  }

  /** The mount of the volume with the configuration common to all nodes. */
  function CommonConfigMount(c: Druid): VolumeMount {
    VolumeMount("common", c.spec.commonConfigMountPath, false, "")
  }

  /**
   * The volume mounts of the container: the node configuration, the common
   * configuration, then the user's mounts in their own order.
   */
  function VolumeMountsOf(cc: NodeSpec, c: Druid, vmM: seq<VolumeMount>): (r: seq<VolumeMount>)
    ensures |r| == 2 + |vmM|
    ensures r[0].name == ConfigMapName(cc) && r[0].mountPath == cc.mountPath
    ensures r[1].name == "common" && r[1].mountPath == c.spec.commonConfigMountPath
    ensures forall i | 0 <= i < |vmM| :: r[2 + i] == vmM[i]
  {
    [NodeConfigMount(cc), CommonConfigMount(c)] + vmM
  }

  /** `getVolumeMounts` */
  method GetVolumeMounts(cc: NodeSpec, c: Druid, vmM: seq<VolumeMount>) returns (r: seq<VolumeMount>)
    ensures r == VolumeMountsOf(cc, c, vmM)
  {
    r := [NodeConfigMount(cc), CommonConfigMount(c)];
    var i := 0;
    while i < |vmM|
      invariant 0 <= i <= |vmM|
      invariant r == [NodeConfigMount(cc), CommonConfigMount(c)] + vmM[..i]
    {
      r := r + [vmM[i]];
      i := i + 1;
    }
    assert vmM[..i] == vmM;
  }

  /** The volume backed by the node's own ConfigMap. */
  function NodeConfigVolume(cc: NodeSpec): Volume {
    Volume(ConfigMapName(cc), ConfigMapVolume(ConfigMapName(cc)))
  }

  /** The volume backed by the ConfigMap named "common". */
  function CommonConfigVolume(): Volume {
    Volume("common", ConfigMapVolume("common"))
  }

  /**
   * The pod volumes: the node's ConfigMap, the common ConfigMap, then the
   * user's volumes in their own order.
   */
  function VolumesOf(cc: NodeSpec, vm: seq<Volume>): (r: seq<Volume>)
    ensures |r| == 2 + |vm|
    ensures r[0].name == ConfigMapName(cc) && r[0].source == ConfigMapVolume(ConfigMapName(cc))
    ensures r[1].name == "common" && r[1].source == ConfigMapVolume("common")
    ensures forall i | 0 <= i < |vm| :: r[2 + i] == vm[i]
  {
    [NodeConfigVolume(cc), CommonConfigVolume()] + vm
  }

  /** `getVolumes` */
  method GetVolumes(cc: NodeSpec, vm: seq<Volume>) returns (r: seq<Volume>)
    ensures r == VolumesOf(cc, vm)
  {
    r := [NodeConfigVolume(cc), CommonConfigVolume()];
    var i := 0;
    while i < |vm|
      invariant 0 <= i <= |vm|
      invariant r == [NodeConfigVolume(cc), CommonConfigVolume()] + vm[..i]
    {
      r := r + [vm[i]];
      i := i + 1;
    }
    assert vm[..i] == vm;
  }

  /** `getVolumeClaimTemplates`: an element-wise copy of its input. */
  method GetVolumeClaimTemplates(vcT: seq<PersistentVolumeClaim>) returns (pvc: seq<PersistentVolumeClaim>)
    ensures |pvc| == |vcT|
    ensures forall i | 0 <= i < |vcT| :: pvc[i] == vcT[i]
  {
    pvc := [];
    var i := 0;
    while i < |vcT|
      invariant 0 <= i <= |vcT|
      invariant pvc == vcT[..i]
    {
      pvc := pvc + [vcT[i]];
      i := i + 1;
    }
  }

  /** The cluster's tolerations followed by the node's, duplicates kept. */
  function TolerationsOf(cc: NodeSpec, c: Druid): (r: seq<Toleration>)
    ensures |r| == |c.spec.tolerations| + |cc.tolerations|
    ensures forall i | 0 <= i < |c.spec.tolerations| :: r[i] == c.spec.tolerations[i]
    ensures forall i | 0 <= i < |cc.tolerations| :: r[|c.spec.tolerations| + i] == cc.tolerations[i]
  {
    c.spec.tolerations + cc.tolerations
  }

  /** `getTolerations` */
  method GetTolerations(cc: NodeSpec, c: Druid) returns (r: seq<Toleration>)
    ensures r == TolerationsOf(cc, c)
  {
    r := [];
    var i := 0;
    while i < |c.spec.tolerations|
      invariant 0 <= i <= |c.spec.tolerations|
      invariant r == c.spec.tolerations[..i]
    {
      r := r + [c.spec.tolerations[i]];
      i := i + 1;
    }
    assert r == c.spec.tolerations;
    var j := 0;
    while j < |cc.tolerations|
      invariant 0 <= j <= |cc.tolerations|
      invariant r == c.spec.tolerations + cc.tolerations[..j]
    {
      r := r + [cc.tolerations[j]];
      j := j + 1;
    }
    assert cc.tolerations[..j] == cc.tolerations;
  }

  /** The cluster's environment followed by the node's, duplicates kept. */
  function EnvOf(cc: NodeSpec, c: Druid): (r: seq<EnvVar>)
    ensures |r| == |c.spec.env| + |cc.env|
    ensures forall i | 0 <= i < |c.spec.env| :: r[i] == c.spec.env[i]
    ensures forall i | 0 <= i < |cc.env| :: r[|c.spec.env| + i] == cc.env[i]
  {
    c.spec.env + cc.env
  }

  /** `getEnv` */
  method GetEnv(cc: NodeSpec, c: Druid) returns (r: seq<EnvVar>)
    ensures r == EnvOf(cc, c)
  {
    r := [];
    var i := 0;
    while i < |c.spec.env|
      invariant 0 <= i <= |c.spec.env|
      invariant r == c.spec.env[..i]
    {
      r := r + [c.spec.env[i]];
      i := i + 1;
    }
    assert r == c.spec.env;
    var j := 0;
    while j < |cc.env|
      invariant 0 <= j <= |cc.env|
      invariant r == c.spec.env + cc.env[..j]
    {
      r := r + [cc.env[j]];
      j := j + 1;
    }
    assert cc.env[..j] == cc.env;
  }

  // ----- pod spec and pod template -----

  /** The one Druid container of a node's pods. */
  function ContainerOf(cc: NodeSpec, c: Druid): (k: Container)
    ensures k.name == cc.name && k.image == c.spec.image
    ensures k.command == Command(cc, c)
    ensures k.resources == cc.resources && k.env == EnvOf(cc, c)
    ensures k.terminationMessagePath == "/dev/termination-log" && k.terminationMessagePolicy == "File"
    ensures k.ports == [ContainerPort(cc.name, cc.service.targetPort, "TCP")]
    ensures k.volumeMounts == VolumeMountsOf(cc, c, cc.volumeMounts)
  {
    Container(
      cc.name,
      c.spec.image,
      Command(cc, c),
      cc.resources,
      EnvOf(cc, c),
      "/dev/termination-log",
      "File",
      [ContainerPort(cc.name, cc.service.targetPort, "TCP")],
      VolumeMountsOf(cc, c, cc.volumeMounts))
  }

  /** `makePodSpec` */
  function PodSpecOf(cc: NodeSpec, c: Druid): (p: PodSpec)
    ensures p.nodeSelector == cc.nodeSelector && p.securityContext == cc.securityContext
    ensures p.tolerations == TolerationsOf(cc, c) && p.affinity == AffinityOf(cc, c)
    ensures p.volumes == VolumesOf(cc, cc.volumes)
    ensures p.imagePullSecrets == c.spec.imagePullSecrets
    ensures p.containers == [ContainerOf(cc, c)]
  {
    PodSpec(
      cc.nodeSelector,
      TolerationsOf(cc, c),
      AffinityOf(cc, c),
      VolumesOf(cc, cc.volumes),
      c.spec.imagePullSecrets,
      cc.securityContext,
      [ContainerOf(cc, c)])
  }

  /** `makePodTemplate`: pods named like the workload, with the node label set. */
  function PodTemplateOf(cc: NodeSpec, c: Druid): (t: PodTemplateSpec)
    ensures t.meta.name == NodeName(cc)
    ensures t.meta.labels == NodeLabels(cc)
    ensures t.meta.annotations == PodAnnotations(cc)
    ensures t.spec == PodSpecOf(cc, c)
  {
    PodTemplateSpec(
      ObjectMeta(NodeName(cc), "", NodeLabels(cc), PodAnnotations(cc), [], [], None, ""),
      PodSpecOf(cc, c))
  }

  // ----- the workloads -----

  /** `makeStatefulSetSpec` */
  function StatefulSetSpecOf(cc: NodeSpec, c: Druid): (s: StatefulSetSpec)
    ensures s.serviceName == cc.name
    ensures s.selector.matchLabels == NodeLabels(cc)
    ensures s.replicas == cc.replicas
    ensures s.template == PodTemplateOf(cc, c)
    ensures s.podManagementPolicy == "OrderedReady"
    ensures s.updateStrategy == StatefulSetUpdateStrategy("RollingUpdate")
    ensures s.volumeClaimTemplates == cc.volumeClaimTemplates
  {
    StatefulSetSpec(
      cc.name,
      LabelSelector(NodeLabels(cc)),
      cc.replicas,
      PodTemplateOf(cc, c),
      "OrderedReady",
      StatefulSetUpdateStrategy("RollingUpdate"),
      cc.volumeClaimTemplates)
  }

  /** `makeDeploymentSpec` */
  function DeploymentSpecOf(cc: NodeSpec, c: Druid): (d: DeploymentSpec)
    ensures d.selector.matchLabels == NodeLabels(cc)
    ensures d.replicas == cc.replicas
    ensures d.template == PodTemplateOf(cc, c)
    ensures d.strategy == DeploymentStrategy("RollingUpdate", Some(RollingUpdateStrategy()))
  {
    DeploymentSpec(
      LabelSelector(NodeLabels(cc)),
      cc.replicas,
      PodTemplateOf(cc, c),
      DeploymentStrategy("RollingUpdate", Some(RollingUpdateStrategy())))
  }

  /**
   * `MakeStatefulSet`: named "druid-<Name>" in the Druid object's namespace;
   * its selector selects exactly the labels its pod template carries.
   */
  function MakeStatefulSet(cc: NodeSpec, c: Druid): (s: StatefulSet)
    ensures s.typeMeta == TypeMeta("StatefulSet", "apps/v1")
    ensures s.meta.name == NodeName(cc) && s.meta.namespace == c.meta.namespace
    ensures s.spec == StatefulSetSpecOf(cc, c)
    ensures s.spec.selector.matchLabels == s.spec.template.meta.labels
  {
    StatefulSet(
      TypeMeta("StatefulSet", "apps/v1"),
      NamedMeta(NodeName(cc), c.meta.namespace, map[]),
      StatefulSetSpecOf(cc, c),
      WorkloadStatus(0, 0, 0))
  }

  /**
   * `MakeDeployment`: named "druid-<Name>" in the Druid object's namespace;
   * its selector selects exactly the labels its pod template carries.
   */
  function MakeDeployment(cc: NodeSpec, c: Druid): (d: Deployment)
    ensures d.typeMeta == TypeMeta("Deployment", "apps/v1")
    ensures d.meta.name == NodeName(cc) && d.meta.namespace == c.meta.namespace
    ensures d.spec == DeploymentSpecOf(cc, c)
    ensures d.spec.selector.matchLabels == d.spec.template.meta.labels
  {
    Deployment(
      TypeMeta("Deployment", "apps/v1"),
      NamedMeta(NodeName(cc), c.meta.namespace, map[]),
      DeploymentSpecOf(cc, c),
      WorkloadStatus(0, 0, 0))
  }

  /**
   * The pods of a StatefulSet mount the node's ConfigMap: the first volume is
   * backed by the ConfigMap MakeConfigMap builds for the same node spec, and
   * the container's first mount uses that volume at the node's MountPath.
   * The second volume is the "common" ConfigMap, mounted at the cluster's
   * CommonConfigMountPath.
   */
  lemma StatefulSetMountsNodeConfigMap(cc: NodeSpec, c: Druid)
    ensures var pod := MakeStatefulSet(cc, c).spec.template.spec;
      |pod.volumes| >= 2 && |pod.containers| == 1 && |pod.containers[0].volumeMounts| >= 2 &&
      pod.volumes[0].source == ConfigMapVolume(MakeConfigMap(cc, c).meta.name) &&
      pod.containers[0].volumeMounts[0].name == pod.volumes[0].name &&
      pod.containers[0].volumeMounts[0].mountPath == cc.mountPath &&
      pod.containers[0].volumeMounts[1].name == pod.volumes[1].name &&
      pod.volumes[1].name == "common" && pod.volumes[1].source == ConfigMapVolume("common") &&
      pod.containers[0].volumeMounts[1].mountPath == c.spec.commonConfigMountPath
  {
  }

  /** The same holds for the pods of a Deployment. */
  lemma DeploymentMountsNodeConfigMap(cc: NodeSpec, c: Druid)
    ensures var pod := MakeDeployment(cc, c).spec.template.spec;
      |pod.volumes| >= 2 && |pod.containers| == 1 && |pod.containers[0].volumeMounts| >= 2 &&
      pod.volumes[0].source == ConfigMapVolume(MakeConfigMap(cc, c).meta.name) &&
      pod.containers[0].volumeMounts[0].name == pod.volumes[0].name &&
      pod.containers[0].volumeMounts[0].mountPath == cc.mountPath &&
      pod.containers[0].volumeMounts[1].name == pod.volumes[1].name &&
      pod.volumes[1].name == "common" && pod.volumes[1].source == ConfigMapVolume("common") &&
      pod.containers[0].volumeMounts[1].mountPath == c.spec.commonConfigMountPath
  {
  }
}
