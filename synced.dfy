/**
 * What the sync helpers compute: an object that takes a few fields from the
 * desired object `next` and every other field from the observed object
 * `curr`.
 */
module Synced {
  import opened Types

  /** Replicas, Template and UpdateStrategy from next; the rest from curr. */
  function SyncedStatefulSet(curr: StatefulSet, next: StatefulSet): (r: StatefulSet)
    ensures r.spec.replicas == next.spec.replicas
    ensures r.spec.template == next.spec.template
    ensures r.spec.updateStrategy == next.spec.updateStrategy
    ensures r.typeMeta == curr.typeMeta && r.meta == curr.meta && r.status == curr.status
    ensures r.spec.serviceName == curr.spec.serviceName && r.spec.selector == curr.spec.selector
    ensures r.spec.podManagementPolicy == curr.spec.podManagementPolicy
    ensures r.spec.volumeClaimTemplates == curr.spec.volumeClaimTemplates
  {
    curr.(spec := curr.spec.(
      replicas := next.spec.replicas,
      template := next.spec.template,
      updateStrategy := next.spec.updateStrategy))
  }

  /** Replicas and Template from next; the rest from curr. */
  function SyncedDeployment(curr: Deployment, next: Deployment): (r: Deployment)
    ensures r.spec.replicas == next.spec.replicas && r.spec.template == next.spec.template
    ensures r.typeMeta == curr.typeMeta && r.meta == curr.meta && r.status == curr.status
    ensures r.spec.selector == curr.spec.selector && r.spec.strategy == curr.spec.strategy
  {
    curr.(spec := curr.spec.(replicas := next.spec.replicas, template := next.spec.template))
  }

  /** Ports and Type from next; the rest (selector, ClusterIP, ...) from curr. */
  function SyncedService(curr: Service, next: Service): (r: Service)
    ensures r.spec.ports == next.spec.ports && r.spec.serviceType == next.spec.serviceType
    ensures r.typeMeta == curr.typeMeta && r.meta == curr.meta && r.status == curr.status
    ensures r.spec.selector == curr.spec.selector && r.spec.clusterIP == curr.spec.clusterIP
  {
    curr.(spec := curr.spec.(ports := next.spec.ports, serviceType := next.spec.serviceType))
  }

  /** Data and BinaryData from next; type and metadata from curr. */
  function SyncedConfigMap(curr: ConfigMap, next: ConfigMap): (r: ConfigMap)
    ensures r.data == next.data && r.binaryData == next.binaryData
    ensures r.typeMeta == curr.typeMeta && r.meta == curr.meta
  {
    curr.(data := next.data, binaryData := next.binaryData)
  }

  /** MaxUnavailable from next; the rest from curr. */
  function SyncedPdb(curr: PodDisruptionBudget, next: PodDisruptionBudget): (r: PodDisruptionBudget)
    ensures r.spec.maxUnavailable == next.spec.maxUnavailable
    ensures r.typeMeta == curr.typeMeta && r.meta == curr.meta && r.status == curr.status
    ensures r.spec.selector == curr.spec.selector
  {
    curr.(spec := curr.spec.(maxUnavailable := next.spec.maxUnavailable))
  }

  /** Annotations and the whole Spec from next; every other metadata field, and the status, from curr. */
  function SyncedIngress(curr: Ingress, next: Ingress): (r: Ingress)
    ensures r.meta == curr.meta.(annotations := next.meta.annotations) && r.spec == next.spec
    ensures r.typeMeta == curr.typeMeta && r.status == curr.status
  {
    curr.(meta := curr.meta.(annotations := next.meta.annotations), spec := next.spec)
  }

  /**
   * Syncing a StatefulSet is idempotent, and syncing it with itself changes
   * nothing; the result does not depend on curr's copied fields.
   */
  lemma SyncedStatefulSetIdempotent(curr: StatefulSet, other: StatefulSet, next: StatefulSet)
    requires curr.typeMeta == other.typeMeta && curr.meta == other.meta && curr.status == other.status
    requires curr.spec.serviceName == other.spec.serviceName && curr.spec.selector == other.spec.selector
    requires curr.spec.podManagementPolicy == other.spec.podManagementPolicy
    requires curr.spec.volumeClaimTemplates == other.spec.volumeClaimTemplates
    ensures SyncedStatefulSet(SyncedStatefulSet(curr, next), next) == SyncedStatefulSet(curr, next)
    ensures SyncedStatefulSet(curr, curr) == curr
    ensures SyncedStatefulSet(curr, next) == SyncedStatefulSet(other, next)
  {
  }

  /** The other syncs are idempotent as well. */
  lemma SyncsIdempotent(d: Deployment, nd: Deployment, s: Service, ns: Service, m: ConfigMap, nm: ConfigMap,
                        p: PodDisruptionBudget, np: PodDisruptionBudget, i: Ingress, ni: Ingress)
    ensures SyncedDeployment(SyncedDeployment(d, nd), nd) == SyncedDeployment(d, nd)
    ensures SyncedService(SyncedService(s, ns), ns) == SyncedService(s, ns)
    ensures SyncedConfigMap(SyncedConfigMap(m, nm), nm) == SyncedConfigMap(m, nm)
    ensures SyncedPdb(SyncedPdb(p, np), np) == SyncedPdb(p, np)
    ensures SyncedIngress(SyncedIngress(i, ni), ni) == SyncedIngress(i, ni)
  {
  }
}
