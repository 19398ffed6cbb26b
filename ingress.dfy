/**
 * The per-node Ingress of pkg/nodes/ingress.go. A disabled ingress still
 * yields an object: no host, the path "/", no TLS.
 */
module Ingresses {
  import opened Wrappers
  import opened Types
  import Services

  /** `GetHost`: the configured host name, "" when the ingress is disabled. */
  function Host(cc: NodeSpec): (h: string)
    ensures !cc.ingress.enabled ==> h == ""
    ensures cc.ingress.enabled ==> h == cc.ingress.hostname
  {
    if !cc.ingress.enabled then "" else cc.ingress.hostname
  }

  /** `GetPath`: the configured path, "/" when the ingress is disabled. */
  function Path(cc: NodeSpec): (p: string)
    ensures !cc.ingress.enabled ==> p == "/"
    ensures cc.ingress.enabled ==> p == cc.ingress.path
  {
    if !cc.ingress.enabled then "/" else cc.ingress.path
  }

  /**
   * `getIngressTLS`: nil unless the ingress and its TLS are both enabled, and
   * then one entry for the host name with the configured secret.
   */
  function IngressTLSOf(cc: NodeSpec): (t: Option<seq<IngressTLS>>)
    ensures t.Some? <==> cc.ingress.enabled && cc.ingress.tlsEnabled
    ensures t.Some? ==> t.value == [IngressTLS([cc.ingress.hostname], cc.ingress.tlsSecretName)]
  {
    if !cc.ingress.enabled then None
    else if cc.ingress.tlsEnabled then Some([IngressTLS([cc.ingress.hostname], cc.ingress.tlsSecretName)])
    else None
  }

  /** `getIngressSpec`: one rule for Host with one path routed to the node's Service. */
  function IngressSpecOf(cc: NodeSpec): (s: IngressSpec)
    ensures s.tls == IngressTLSOf(cc)
    ensures |s.rules| == 1 && s.rules[0].host == Host(cc)
    ensures s.rules[0].http == Some([HTTPIngressPath(Path(cc), IngressBackend(cc.name, IntValue(cc.service.port)))])
  {
    IngressSpec(
      IngressTLSOf(cc),
      [IngressRule(Host(cc), Some([HTTPIngressPath(Path(cc), IngressBackend(cc.name, IntValue(cc.service.port)))]))])
  }

  /** `getIngressAnnotations`: the ingress annotations verbatim, {app: Name} when they are nil. */
  function IngressAnnotations(cc: NodeSpec): (m: StringMap)
    ensures cc.ingress.annotations.None? ==> m == map["app" := cc.name]
    ensures cc.ingress.annotations.Some? ==> m == cc.ingress.annotations.value
  {
    match cc.ingress.annotations
    case None => map["app" := cc.name]
    case Some(a) => a
  }

  /** `MakeDruidIngress` */
  function MakeDruidIngress(cc: NodeSpec, c: Druid): (ing: Ingress)
    ensures ing.typeMeta == TypeMeta("", "")
    ensures ing.meta.name == cc.name && ing.meta.namespace == c.meta.namespace
    ensures ing.meta.labels == NodeLabels(cc)
    ensures ing.meta.annotations == IngressAnnotations(cc)
    ensures ing.spec == IngressSpecOf(cc)
  {
    Ingress(
      TypeMeta("", ""),
      ObjectMeta(cc.name, c.meta.namespace, NodeLabels(cc), IngressAnnotations(cc), [], [], None, ""),
      IngressSpecOf(cc),
      IngressStatus([]))
  }

  /**
   * Every path of the Ingress routes to the node's Service: the backend names
   * the Service MakeService builds for the same node spec and its port.
   */
  lemma IngressRoutesToNodeService(cc: NodeSpec, c: Druid)
    ensures var ing := MakeDruidIngress(cc, c);
      var svc := Services.MakeService(cc, c);
      forall rule | rule in ing.spec.rules ::
        rule.http.Some? &&
        forall p | p in rule.http.value ::
          p.backend.serviceName == svc.meta.name &&
          p.backend.servicePort == IntValue(svc.spec.ports[0].port)
  {
  }

  /** A disabled ingress has no TLS and routes "/" on any host. */
  lemma DisabledIngressDefaults(cc: NodeSpec, c: Druid)
    requires !cc.ingress.enabled
    ensures MakeDruidIngress(cc, c).spec.tls == None
    ensures MakeDruidIngress(cc, c).spec.rules[0].host == ""
    ensures MakeDruidIngress(cc, c).spec.rules[0].http.value[0].path == "/"
  {
  }
}
