/** The per-node PodDisruptionBudget of pkg/controller/nodes/pdb.go. */
module Pdbs {
  import opened Wrappers
  import opened Types
  import Objects

  /**
   * `MakePodDisruptionBudget`: the budget together with the error the source
   * returns beside it, which is always nil (None).
   */
  function MakePodDisruptionBudget(cc: NodeSpec, c: Druid): (r: (PodDisruptionBudget, Option<string>))
    ensures r.1 == None
    ensures r.0.typeMeta == TypeMeta("PodDisruptionBudget", "policy/v1beta1")
    ensures r.0.meta.name == cc.name && r.0.meta.namespace == c.meta.namespace
    ensures r.0.meta.labels == NodeLabels(cc)
    ensures r.0.spec.selector.matchLabels == r.0.meta.labels
    ensures r.0.spec.maxUnavailable == IntValue(cc.maxUnavailable)
  {
    (PodDisruptionBudget(
       TypeMeta("PodDisruptionBudget", "policy/v1beta1"),
       NamedMeta(cc.name, c.meta.namespace, NodeLabels(cc)),
       PodDisruptionBudgetSpec(LabelSelector(NodeLabels(cc)), IntValue(cc.maxUnavailable)),
       PodDisruptionBudgetStatus(0, 0)),
     None)
  }

  /**
   * The budget covers exactly the pods of the node's workload: its selector
   * equals the selector of the StatefulSet and of the Deployment built for
   * the same node spec.
   */
  lemma BudgetSelectsWorkloadPods(cc: NodeSpec, c: Druid)
    ensures MakePodDisruptionBudget(cc, c).0.spec.selector == Objects.MakeStatefulSet(cc, c).spec.selector
    ensures MakePodDisruptionBudget(cc, c).0.spec.selector == Objects.MakeDeployment(cc, c).spec.selector
    ensures MakePodDisruptionBudget(cc, c).0.spec.selector.matchLabels
      == Objects.MakeStatefulSet(cc, c).spec.template.meta.labels
  {
  }
}
