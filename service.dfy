/** The per-node Service of pkg/controller/nodes/service.go. */
module Services {
  import opened Types

  /** `getServiceType`: the node's service type, ClusterIP when it is empty. */
  function ServiceType(cc: NodeSpec): (t: string)
    ensures t != ""
    ensures cc.service.serviceType != "" ==> t == cc.service.serviceType
    ensures cc.service.serviceType == "" ==> t == "ClusterIP"
  {
    if cc.service.serviceType == "" then "ClusterIP" else cc.service.serviceType
  }

  /** The desired Service of a node spec. */
  function MakeService(cc: NodeSpec, c: Druid): (s: Service)
    ensures s.typeMeta == TypeMeta("", "")
    ensures s.meta.name == cc.name && s.meta.namespace == c.meta.namespace
    ensures s.meta.labels == NodeLabels(cc)
    ensures |s.spec.ports| == 1
    ensures s.spec.ports[0].port == cc.service.port
    ensures s.spec.ports[0].targetPort == IntValue(cc.service.targetPort)
    ensures s.spec.ports[0].nodePort == 0
    ensures s.spec.selector == map["name" := cc.name]
    ensures s.spec.clusterIP == ""
    ensures s.spec.serviceType == ServiceType(cc)
  {
    Service(
      TypeMeta("", ""),
      NamedMeta(cc.name, c.meta.namespace, NodeLabels(cc)),
      ServiceSpec(
        [ServicePort(cc.service.port, IntValue(cc.service.targetPort), 0)],
        map["name" := cc.name],
        "",
        ServiceType(cc)),
      ServiceStatus([]))
  }

  /** The Service selects a subset of every pod label set of its node spec. */
  lemma ServiceSelectorWithinNodeLabels(cc: NodeSpec, c: Druid)
    ensures MakeService(cc, c).spec.selector.Keys <= NodeLabels(cc).Keys
    ensures forall k | k in MakeService(cc, c).spec.selector :: MakeService(cc, c).spec.selector[k] == NodeLabels(cc)[k]
  {
  }
}
