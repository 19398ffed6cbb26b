# druid-operator: a Dafny model of the reconcile core

This project models the core of the BinaryOmen druid-operator. The operator is a Kubernetes controller that watches `Druid` custom resources. For each resource it creates and keeps in step the StatefulSets, Deployments, Services and ConfigMaps of the Druid cluster's nodes. The model covers:

- **Validation** of a `Druid` spec (`Validation`): cluster- and node-level checks, each appending one line to an error message.
- **Object builders** (`Objects`, `ConfigMaps`, `Services`, `Pdbs`, `Ingresses`): the desired StatefulSet, Deployment, ConfigMap, Service, PodDisruptionBudget and Ingress of a node spec.
- **Sync helpers** (`Synced`, `ControllerSync`, `PkgSync`, `Historicals`): copy the desired fields onto an observed object.
- **Node ordering** (`NodeOrder`): groups node specs by node type and concatenates the groups in the prescribed order, with an error on an unknown node type.
- **The reconcile layer** (`Reconcile`): a Get on each object, then Create when it is missing, or scale and sync Updates when it exists, node by node.
- **The controller entry point** (`Controller`): Get, then validate, then reconcile the nodes, then handle deletion through the finalizer, or add the finalizer and requeue after 30 seconds.

Kubernetes objects are value datatypes (`Types`). The API server is `Clients.Client`, an in-memory store:

- objects are keyed by kind, namespace and name;
- each Get, Create and Update call is recorded in a log;
- faults are fixed per key and per operation, so a test of any error path is a choice of faults.

A Go pointer that the code mutates is a `Types.Ref<T>` object.

## Model

| member | source | states |
|---|---|---|
| Validation.Validator.Validate | pkg/controller/validation/validation.go:13-67 | `Validated` ends true exactly when every cluster and node check passes. The message gains exactly the text of the failed checks, appended to what was there. |
| Validation.Validator.ValidateNode | pkg/controller/validation/validation.go:37-65 | One node's six checks run in order. The message gains their failure text, and `Validated` is and-ed with the node being valid. |
| Validation.Validator.Report | pkg/controller/validation/validation.go:16-19 | One check appends its message exactly when it fails, and clears `Validated` then. |
| Validation.ClusterTextInOrder | pkg/controller/validation/validation.go:16-34 | The cluster checks report in the order CommonRuntimeProperties, CommonConfigMountPath, StartScript, Image, with no short-circuit. |
| Validation.NodeTextInOrder | pkg/controller/validation/validation.go:37-65 | The node checks report in the order NodeType, Replicas, RuntimeProperties, MountPath, Service, Name, with no short-circuit. |
| Validation.NodesTextStep | pkg/controller/validation/validation.go:36-66 | The node texts accumulate in the order the nodes are iterated. |
| Validation.NodesOkStep | pkg/controller/validation/validation.go:36-66 | All nodes are valid exactly when the earlier nodes are and the next one is. |
| Validation.NodesTextAppend | pkg/controller/validation/validation.go:36-66 | The nodes' text over two lists is the concatenation of their texts. |
| Validation.Text | pkg/controller/validation/validation.go:17-63 | The ten message texts of the checks, without their newline; each ends in " Spec". |
| Validation.MessageNotEmpty | pkg/controller/validation/validation.go:17-63 | Every check's message is non-empty. |
| Validation.MessageIsOneLine | pkg/controller/validation/validation.go:17-63 | Every message holds exactly one newline, at its end. |
| Validation.TextHasNoNewline | pkg/controller/validation/validation.go:17-63 | No message text has a newline before its terminator. |
| Validation.ClusterTextHasNoNewline | pkg/controller/validation/validation.go:17-32 | The same, for the four cluster messages. |
| Validation.NodeCheckTextHasNoNewline | pkg/controller/validation/validation.go:38-63 | The same, for the six node messages. |
| Validation.ReportedLines | pkg/controller/validation/validation.go:16-19 | A check adds one line when it fails and none when it passes. |
| Validation.ClusterTextLines | pkg/controller/validation/validation.go:16-34 | The cluster text has one line per failed cluster check. |
| Validation.NodeTextLines | pkg/controller/validation/validation.go:37-65 | A node's text has one line per failed node check. The Service check counts once when both ports are 0. |
| Validation.NodesTextLines | pkg/controller/validation/validation.go:36-66 | The text of all nodes has one line per failed node check. |
| Validation.TextLinesAreFailedChecks | pkg/controller/validation/validation.go:16-66 | The whole text's line count equals the number of failed checks. |
| Validation.NodesFailedChecksZero | pkg/controller/validation/validation.go:36-66 | No node check fails exactly when every node is valid. |
| Validation.FailedChecksZeroIffValid | pkg/controller/validation/validation.go:14-66 | No check fails exactly when the spec is valid. |
| Validation.NodesTextEmpty | pkg/controller/validation/validation.go:36-66 | The nodes' text is empty exactly when every node is valid. |
| Validation.TextEmptyIffValid | pkg/controller/validation/validation.go:14-66 | The validation text is empty exactly when the spec is valid. |
| Validation.ErrorMessageOnlyGrows | pkg/controller/validation/validation.go:17 | The prior message stays a prefix. A valid spec leaves the message exactly as it was, and only a valid one does. |
| Validation.LinesAppend | pkg/controller/validation/validation.go:17 | Line counts add up over concatenation. |
| NodeOrder.IndexOf | pkg/controller/druid/reconcile.go:49-57 | A type's position in the list is below the length exactly when the type is in it, and names that type. |
| NodeOrder.NodeTypesDistinct | pkg/controller/druid/reconcile.go:18-26 | The seven node type constants are pairwise different. |
| NodeOrder.FirstUnknown | pkg/controller/druid/reconcile.go:59-62 | The node type named in the error is indeed not one of the seven. |
| NodeOrder.InvalidNodeTypeMessage | pkg/controller/druid/reconcile.go:62 | Starts with "druidSpec[", then Kind and Name, and ends with the rejected NodeType followed by "]. Deployment aborted". |
| NodeOrder.FirstUnknownAt | pkg/controller/druid/reconcile.go:59-62 | The first unknown type is that of the first node the loop rejects. |
| NodeOrder.BucketAppend | pkg/controller/druid/reconcile.go:59-65 | Grouping is compositional over concatenated node lists. |
| NodeOrder.BucketSnoc | pkg/controller/druid/reconcile.go:64 | One loop step appends the node to its type's bucket only. |
| NodeOrder.BucketOfType | pkg/controller/druid/reconcile.go:64 | A bucket holds only nodes of its type. |
| NodeOrder.BucketOfBucket | pkg/controller/druid/reconcile.go:64 | Re-bucketing a bucket by its own type keeps it; by another type empties it. |
| NodeOrder.EmptyBucketsKeys | pkg/controller/druid/reconcile.go:49-57 | The initial map has exactly the seven types as keys, each with an empty list. |
| NodeOrder.BucketsStep | pkg/controller/druid/reconcile.go:60-65 | One loop step keeps the key set and extends the right bucket. |
| NodeOrder.BucketsComplete | pkg/controller/druid/reconcile.go:68-76 | The seven appends give the concatenation of the buckets in the prescribed order. |
| NodeOrder.GroupedInit | pkg/controller/druid/reconcile.go:49-57 | The grouping invariant holds before the loop. |
| NodeOrder.GroupedStep | pkg/controller/druid/reconcile.go:60-65 | A known node type keeps the grouping invariant. |
| NodeOrder.GroupedUnknown | pkg/controller/druid/reconcile.go:60-62 | An unknown node type is the first unknown type of the spec. |
| NodeOrder.GroupedDone | pkg/controller/druid/reconcile.go:59-66 | After the loop every node is known and each bucket holds the spec's nodes of that type. |
| NodeOrder.GroupByNodeType | pkg/controller/druid/reconcile.go:49-66 | Succeeds exactly when every node type is known, with the buckets in input order. Otherwise it fails with the message naming the first unknown type. |
| NodeOrder.GetAllNodeSpecsInDruidPrescribedOrder | pkg/controller/druid/reconcile.go:48-79 | Returns the prescribed ordering when every node type is known; otherwise the invalid-node-type error. |
| NodeOrder.OrderedByEmpty | pkg/controller/druid/reconcile.go:68-76 | No nodes give an empty ordering. |
| NodeOrder.DistinctTail | pkg/controller/druid/reconcile.go:18-26 | The rest of a distinct type list is distinct and misses the head. |
| NodeOrder.OrderedBySnoc | pkg/controller/druid/reconcile.go:59-76 | Adding a node adds it to the ordering's multiset exactly when its type is listed. |
| NodeOrder.OrderedByIsPermutation | pkg/controller/druid/reconcile.go:59-78 | With every type listed, the ordering is a permutation of the nodes. |
| NodeOrder.OrderedIsPermutation | pkg/controller/druid/reconcile.go:59-78 | On success the list holds every node exactly once; its length is the number of nodes. |
| NodeOrder.OrderedBySorted | pkg/controller/druid/reconcile.go:70-76 | The ordering is non-decreasing by the position of the type in the type list. |
| NodeOrder.OrderedIsSorted | pkg/controller/druid/reconcile.go:70-76 | The list is non-decreasing by rank historical < overlord < middleManager < indexer < broker < coordinator < router. |
| NodeOrder.OrderedByStable | pkg/controller/druid/reconcile.go:64-76 | Within a type, the ordering keeps the input order. |
| NodeOrder.OrderedIsStable | pkg/controller/druid/reconcile.go:64-76 | Each type's nodes appear in input order. |
| NodeOrder.OrderedUnfold | pkg/controller/druid/reconcile.go:70-76 | The ordering is the seven buckets concatenated in the prescribed order. |
| NodeOrder.AllKnownTail | pkg/controller/druid/reconcile.go:59-62 | Known node types stay known on a suffix. |
| NodeOrder.AllKnownSnoc | pkg/controller/druid/reconcile.go:59-62 | Known node types stay known after adding a known one. |
| Reconcile.UpdateStatefulSet | pkg/controller/druid/reconcile.go:247-258 | Syncs a copy but issues exactly one Update of the observed StatefulSet, with its outcome by fault and presence. |
| Reconcile.UpdateCm | pkg/controller/druid/reconcile.go:273-284 | The same, for a ConfigMap. |
| Reconcile.UpdateService | pkg/controller/druid/reconcile.go:286-297 | The same, for a Service. |
| Reconcile.ScaleAndSyncStatefulSet | pkg/controller/druid/reconcile.go:140-150 | Stores the node's replicas. Issues the scale Update only when the counts differ, and then always the sync Update. |
| Reconcile.ScaleDeployment | pkg/controller/druid/reconcile.go:180-189 | Equal replica counts mean no write. Otherwise one Update with the new count; the template is never compared. |
| Reconcile.RewriteConfigMap | pkg/controller/druid/reconcile.go:211-215 | Two Updates of the observed ConfigMap; the store is unchanged and the second Update's error is returned. |
| Reconcile.RewriteService | pkg/controller/druid/reconcile.go:238-242 | The same, for a Service. |
| Reconcile.CreateOwned | pkg/controller/druid/reconcile.go:127-136 | An owner reference that fails means no Create. Otherwise exactly one Create of the owned object. |
| Reconcile.ReconcileSts | pkg/controller/druid/reconcile.go:121-159 | One Get. NotFound means the owner reference, then one Create. Another Get error is returned with no write. A found set gets 1 or 2 Updates storing the node's replicas. Only that key changes. |
| Reconcile.ReconcileDeployment | pkg/controller/druid/reconcile.go:161-191 | One Get. NotFound means the owner reference, then one Create. Another Get error is returned. A found Deployment gets an Update only when the replica counts differ. |
| Reconcile.ReconcileConfigMap | pkg/controller/druid/reconcile.go:193-218 | One Get. NotFound means the owner reference, then one Create. Another Get error is returned. A found ConfigMap gets two unconditional Updates of the observed object. |
| Reconcile.ReconcileService | pkg/controller/druid/reconcile.go:220-245 | The same, for a Service. |
| Reconcile.NodeKeysAreNodeGets | pkg/controller/druid/reconcile.go:90-115 | The objects a node spec touches are exactly the keys its steps read. |
| Reconcile.PlannedKeysCover | pkg/controller/druid/reconcile.go:86-117 | Every node spec's objects are among those the loop touches. |
| Reconcile.IsStatefulType | pkg/controller/druid/reconcile.go:90 | The node types reconciled as a StatefulSet: historical and middleManager. |
| Reconcile.IsDeploymentType | pkg/controller/druid/reconcile.go:98 | The node types reconciled as a Deployment: overlord, router, broker and coordinator. |
| Reconcile.WorkloadTypes | pkg/controller/druid/reconcile.go:90-105 | A node type has a StatefulSet or Deployment exactly when it is a known type other than indexer. |
| Reconcile.ReconcileNodeSts | pkg/controller/druid/reconcile.go:90-97 | historical and middleManager nodes reconcile a StatefulSet named after the node. Druid objects are untouched. The returned error is the StatefulSet reconcile's, as `WorkloadError` gives it from the store and faults before the call; it replaces the previous error. |
| Reconcile.ReconcileNodeDeployment | pkg/controller/druid/reconcile.go:98-105 | overlord, router, broker and coordinator nodes reconcile a Deployment. Druid objects are untouched. The returned error is the Deployment reconcile's, as `WorkloadError` gives it; it replaces the previous error. |
| Reconcile.ReconcileNodeService | pkg/controller/druid/reconcile.go:111-112 | Every node reconciles its Service, and the error is discarded. |
| Reconcile.ReconcileNodeConfigMap | pkg/controller/druid/reconcile.go:114-115 | Every node reconciles a ConfigMap, and the error is discarded. |
| Reconcile.ReconcileNodeSupport | pkg/controller/druid/reconcile.go:108-115 | Service, then node ConfigMap, then common ConfigMap. Without faults all three exist afterwards. |
| Reconcile.ReconcileNodeSpec | pkg/controller/druid/reconcile.go:88-115 | The reads follow the node type: a workload only for stateful or deployment types, then Service and two ConfigMaps. For a workload type the error is that workload's reconcile error; an indexer keeps the previous error. Service and ConfigMap errors never reach it. |
| Reconcile.ReconcileNodeSpecs | pkg/controller/druid/reconcile.go:86-117 | Every node is attempted in order, whatever errors occur. An empty list makes no call. The error is the last workload node's WorkloadError of that node from a store holding every key the loop started with (which store beyond that is not stated), or none when there is no workload node; earlier errors are masked. Without faults, no error and every node's objects exist. |
| Reconcile.ReconcileDruidNodes | pkg/controller/druid/reconcile.go:83-119 | An ordering error is discarded and no call is made. Otherwise the nodes are reconciled in the prescribed order, and the error is the last workload node's WorkloadError of that node from a store holding every key the loop started with (which store beyond that is not stated). When no workload node's key is refused, no error is returned. Without faults, every node spec's objects exist. |
| Reconcile.ReconileDruid | pkg/controller/druid/reconcile.go:33-45 | Returns the node reconciliation's error, with the same effects on the store: the last workload node's WorkloadError of that node from a store holding every key the loop started with (which store beyond that is not stated), and none when no workload node's key is refused. |
| Reconcile.LastWorkload | pkg/controller/druid/reconcile.go:90-105 | The index of the last StatefulSet or Deployment node spec among the first `n`: later ones are indexers. None means no workload node. |
| Reconcile.LastWorkloadErrorCases | pkg/controller/druid/reconcile.go:86-118 | The loop error is none when the last workload node's key has no fault or there is no workload node, and `Refused` when its read is refused. When its object was already stored, the error is none without a Get or Update fault, and `Refused` for a StatefulSet with an Update fault. The found Deployment with an Update fault is left open, because its stored replicas are not tracked. |
| Reconcile.EveryNodePlanned | pkg/controller/druid/reconcile.go:83-117 | Every node spec of the Druid, not only of the ordered list, has its objects among those the loop reaches, because the prescribed order is a permutation. |
| Reconcile.CleanWorkloadsNoError | pkg/controller/druid/reconcile.go:86-118 | When no workload node spec of the Druid has a fault on its key, reconcileDruidNodes returns no error, whatever Service and ConfigMap calls did. |
| Reconcile.ReconcileNodeStep | pkg/controller/druid/reconcile.go:88-116 | One pass of the loop: the reads of node `i` are appended, no object is removed, and the tracked error moves from the first `i` nodes to the first `i + 1`. |
| Reconcile.NodesDoneStart | pkg/controller/druid/reconcile.go:83-86 | Before the loop no read is made and there is no error. |
| Reconcile.ReconcileEachNodeSpec | pkg/controller/druid/reconcile.go:86-117 | After the loop every node spec is done: planned reads made, Druids untouched, and the error the last workload reconcile's, from a store that holds every starting key. |
| Controller.Contains | pkg/controller/druid/druid_controller.go:189-196 | True exactly when some element equals the string. |
| Controller.WithoutAppend | pkg/controller/druid/druid_controller.go:198-205 | Removal is compositional over concatenation. |
| Controller.WithoutAbsent | pkg/controller/druid/druid_controller.go:198-205 | An absent string leaves the list unchanged. |
| Controller.WithoutOnce | pkg/controller/druid/druid_controller.go:198-205 | A single occurrence is cut out, with the order of the rest kept. |
| Controller.WithoutRemovesOnly | pkg/controller/druid/druid_controller.go:198-205 | No occurrence is left and every other element keeps its count. |
| Controller.Remove | pkg/controller/druid/druid_controller.go:198-205 | The in-place loop over the slice's backing array. With at most one occurrence it returns the list without it, and so the list unchanged when absent. |
| Controller.WithFinalizers | pkg/controller/druid/druid_controller.go:148 | Setting finalizers changes only them: same key, spec and deletion mark. |
| Controller.FinalizeDruid | pkg/controller/druid/druid_controller.go:167-174 | Finalization never fails. |
| Controller.AddFinalizer | pkg/controller/druid/druid_controller.go:176-187 | Appends the finalizer and issues exactly one Update of the object, with its outcome. Afterwards the finalizer is contained. |
| Controller.HandleDeletion | pkg/controller/druid/druid_controller.go:137-155 | Without the finalizer, nothing happens. With it, finalize, remove it and issue one Update of the object without it. |
| Controller.ReconcileFinalizer | pkg/controller/druid/druid_controller.go:136-165 | A deleted object gets no requeue. Otherwise the finalizer is added only if absent. The result is RequeueAfter 30s exactly when the object is not being deleted and no error occurred, and the stored object then holds the finalizer. |
| Controller.ReconcileRequest | pkg/controller/druid/druid_controller.go:100-166 | NotFound means an empty result, no error and no further call; another Get error is returned. A failed validation means an empty result, no error and no node reconciliation. Nodes are reconciled in the prescribed order, and deletion or finalizer handling follows. Without faults there is no error, and a requeued object holds the finalizer. A refused read of the last workload node gives `Refused` and no requeue. |
| Objects.NodeName | pkg/controller/nodes/objects.go:141-143 | "druid-" followed by the node spec's Name. |
| Objects.NodeNameIffSameName | pkg/controller/nodes/objects.go:141-143 | Node object names agree exactly when node names agree. |
| Objects.PodAnnotations | pkg/controller/nodes/objects.go:145-154 | Gives {app: druid} when the node has no annotations, else the node's map verbatim. |
| Objects.Command | pkg/controller/nodes/objects.go:156-158 | The command is exactly [StartScript, NodeType]. |
| Objects.AffinityOf | pkg/controller/nodes/objects.go:227-235 | The node's affinity when set, else the cluster's. |
| Objects.RollingUpdateStrategy | pkg/controller/nodes/objects.go:85-92 | MaxUnavailable and MaxSurge are both the integer 25. |
| Objects.VolumeMountsOf | pkg/controller/nodes/objects.go:160-175 | 2 + n mounts: the node config, then "common", then the user mounts in order. |
| Objects.GetVolumeMounts | pkg/controller/nodes/objects.go:160-175 | The appending loop builds exactly that list. |
| Objects.VolumesOf | pkg/controller/nodes/objects.go:177-205 | 2 + n volumes: the node ConfigMap, then "common", then the user volumes in order. |
| Objects.GetVolumes | pkg/controller/nodes/objects.go:177-205 | The appending loop builds exactly that list. |
| Objects.GetVolumeClaimTemplates | pkg/controller/nodes/objects.go:207-214 | An element-wise equal copy. |
| Objects.TolerationsOf | pkg/controller/nodes/objects.go:216-225 | The cluster tolerations followed by the node's, not de-duplicated. |
| Objects.GetTolerations | pkg/controller/nodes/objects.go:216-225 | The two appending loops build exactly that list. |
| Objects.EnvOf | pkg/controller/nodes/objects.go:237-246 | The cluster env followed by the node's, not de-duplicated. |
| Objects.GetEnv | pkg/controller/nodes/objects.go:237-246 | The two appending loops build exactly that list. |
| Objects.ContainerOf | pkg/controller/nodes/objects.go:118-135 | One container: node name, cluster image, the command, one TCP port at TargetPort, and the mounts. |
| Objects.PodSpecOf | pkg/controller/nodes/objects.go:109-139 | Node selector, tolerations, affinity, volumes, pull secrets, security context and the single container. |
| Objects.PodTemplateOf | pkg/controller/nodes/objects.go:94-107 | Named after the node, labelled {app, type, name}, annotated as above. |
| Objects.StatefulSetSpecOf | pkg/controller/nodes/objects.go:42-63 | ServiceName = Name, selector = node labels, OrderedReady, RollingUpdate, the node's replicas and claim templates. |
| Objects.DeploymentSpecOf | pkg/controller/nodes/objects.go:64-83 | Selector = node labels, the node's replicas, and a RollingUpdate strategy of 25/25. |
| Objects.MakeStatefulSet | pkg/controller/nodes/objects.go:13-26 | Named "druid-" + Name in the Druid's namespace; the selector equals the pod template labels. |
| Objects.MakeDeployment | pkg/controller/nodes/objects.go:28-40 | Named "druid-" + Name in the Druid's namespace; the selector equals the pod template labels. |
| Objects.StatefulSetMountsNodeConfigMap | pkg/controller/nodes/objects.go:160-205 | The StatefulSet's pod mounts the node ConfigMap at MountPath and "common" at CommonConfigMountPath. |
| Objects.DeploymentMountsNodeConfigMap | pkg/controller/nodes/objects.go:160-205 | The same for the Deployment. |
| Types.NodeLabels | pkg/controller/nodes/objects.go:98-102 | Exactly {app: druid, type: NodeType, name: Name}. |
| ConfigMaps.MakeConfigMap | pkg/controller/nodes/configmap.go:12-26 | Kind ConfigMap, v1, the Druid's namespace, and one data key "runtime.properties" holding RuntimeProperties. |
| ConfigMaps.SuffixCancels | pkg/controller/nodes/configmap.go:28-30 | A common suffix cancels. |
| ConfigMaps.ConfigMapName | pkg/controller/nodes/configmap.go:28-30 | NodeType followed by "-runtime-properties". |
| ConfigMaps.ConfigMapNameIffSameNodeType | pkg/controller/nodes/configmap.go:28-30 | Names agree exactly when node types agree. |
| ConfigMaps.SameNodeTypeSharesConfigMap | pkg/controller/nodes/configmap.go:12-30 | Two nodes of one type share a ConfigMap name even with different contents. |
| Services.ServiceType | pkg/controller/nodes/service.go:42-47 | ClusterIP when unset, else the given type. |
| Services.MakeService | pkg/controller/nodes/service.go:10-40 | Name and namespace, node labels, one port (Port, integer TargetPort, NodePort 0), selector {name: Name}. |
| Services.ServiceSelectorWithinNodeLabels | pkg/controller/nodes/service.go:21-35 | The selector is a sub-map of the node labels, so it selects the node's pods. |
| Pdbs.MakePodDisruptionBudget | pkg/controller/nodes/pdb.go:10-43 | policy/v1beta1, node labels, a selector on them, MaxUnavailable from the spec, and never an error. |
| Pdbs.BudgetSelectsWorkloadPods | pkg/controller/nodes/pdb.go:10-43 | The budget's selector is the StatefulSet's and the Deployment's, so it matches their pods. |
| Ingresses.Host | pkg/nodes/ingress.go:66-71 | The hostname when enabled, else "". |
| Ingresses.Path | pkg/nodes/ingress.go:73-78 | The path when enabled, else "/". |
| Ingresses.IngressTLSOf | pkg/nodes/ingress.go:26-40 | TLS is present exactly when ingress and TLS are enabled: one entry for the host and secret. |
| Ingresses.IngressSpecOf | pkg/nodes/ingress.go:42-64 | One rule on the host with one path to the node's Service port. |
| Ingresses.IngressAnnotations | pkg/nodes/ingress.go:80-89 | {app: Name} when unset, else the given map. |
| Ingresses.MakeDruidIngress | pkg/nodes/ingress.go:10-24 | Name, namespace, node labels, the annotations and the spec. |
| Ingresses.IngressRoutesToNodeService | pkg/nodes/ingress.go:42-64 | Every rule routes to the node's Service by name and port. |
| Ingresses.DisabledIngressDefaults | pkg/nodes/ingress.go:26-78 | A disabled ingress has no TLS, host "" and path "/". |
| Synced.SyncedStatefulSet | pkg/controller/sync/sync.go:11-17 | Replicas, template and update strategy come from the desired set; everything else is kept. |
| Synced.SyncedDeployment | pkg/controller/sync/sync.go:19-23 | Replicas and template come from the desired object; the rest is kept. |
| Synced.SyncedService | pkg/controller/sync/sync.go:25-29 | Ports and type come from the desired object; selector and ClusterIP are kept. |
| Synced.SyncedConfigMap | pkg/controller/sync/sync.go:31-35 | Data and binary data come from the desired object; metadata is kept. |
| Synced.SyncedPdb | pkg/controller/sync/sync.go:37-40 | MaxUnavailable comes from the desired object; the selector is kept. |
| Synced.SyncedIngress | pkg/sync/sync.go:40-44 | Annotations and spec come from the desired object; every other metadata field (name, namespace, labels, owner references, finalizers, deletion timestamp, resource version), the type and the status are kept. |
| Synced.SyncedStatefulSetIdempotent | pkg/controller/sync/sync.go:11-17 | A second sync changes nothing, syncing a set with itself is the identity, and the result depends only on the kept fields of the observed set. |
| Synced.SyncsIdempotent | pkg/controller/sync/sync.go:19-40 | Syncing twice equals syncing once, for every kind. |
| ControllerSync.SyncStatefulSet | pkg/controller/sync/sync.go:11-17 | Returns the synced copy; the caller's objects are not changed. |
| ControllerSync.SyncDeployment | pkg/controller/sync/sync.go:19-23 | Returns the synced copy; the caller's objects are not changed. |
| ControllerSync.SyncService | pkg/controller/sync/sync.go:25-29 | Returns the synced copy; the caller's objects are not changed. |
| ControllerSync.SyncCm | pkg/controller/sync/sync.go:31-35 | Returns the synced copy; the caller's objects are not changed. |
| ControllerSync.SyncPdb | pkg/controller/sync/sync.go:37-40 | Returns the synced copy; the caller's objects are not changed. |
| PkgSync.SyncIngress | pkg/sync/sync.go:40-44 | Returns the synced copy; the caller's objects are not changed. |
| Historicals.SyncStatefulSet | pkg/controller/druid/historicals.go:106-110 | Overwrites replicas, template and update strategy of the observed set in place; the desired set is untouched. |
| Historicals.SyncTwice | pkg/controller/druid/historicals.go:106-110 | Applying the in-place sync twice leaves the same state as once. |
| Clients.Client.Get | pkg/controller/druid/reconcile.go:123 | The controller-runtime Get, reduced to the store with per-key faults: a fault gives `Refused`; otherwise the stored object, or `NotFound` for a missing key. The store is unchanged and the read is recorded. |
| Clients.Client.Create | pkg/controller/druid/reconcile.go:132 | The controller-runtime Create, reduced to the store with per-key faults: a fault gives `Refused`, a stored key gives `AlreadyExists`, both with the store unchanged; otherwise the object is stored under its key. |
| Clients.Client.Update | pkg/controller/druid/reconcile.go:143 | The controller-runtime Update, reduced to the store with per-key faults: a fault gives `Refused`, a missing key gives `NotFound`, both with the store unchanged; otherwise the object replaces the stored one. |
| Clients.Client.SetControllerReference | pkg/controller/druid/reconcile.go:128 | With no fault, adds one controller owner reference and keeps the key. |

## Left out

- Logging, controller registration and watches (`Add`, `add`, `newReconciler`), and the scheme are left out. They do not affect the object store.
- Kubernetes API-server semantics are reduced to a key-value store with per-key faults. This leaves out resource versions, conflicts and admission.
- Concurrency and the work queue are left out. Requeueing is only the returned `ReconcileResult`.
- `MakeConfigMapNode` and `MakeConfigMapCommon` are called by `reconcileDruidNodes`, but they are not part of this model. They are parameters `cmNode` and `cmCommon` of the driver.
- `updateDeployment` (pkg/controller/druid/reconcile.go:260-271) is never called by the core, and is not modelled.
- pkg/sync's `SyncStatefulSet`, `SyncDeployment`, `SyncService` and `SyncCm` are modelled once, by `ControllerSync`, because they assign the same fields. `PkgSync.SyncIngress` is the one pkg/sync-only function.
- Controller.FinalizeDruid: the Go function only logs, so the model returns no error and does nothing else.
- Controller.Remove: it is specified only when the finalizer occurs at most once. With two or more occurrences, Go's in-place `remove` either panics on a slice bound or leaves an occurrence behind. The model returns None for the panic and leaves the other outcome unspecified.
- Reconcile.ReconcileDruidNodes: the store that the last workload reconcile read is stated only to hold every key the loop started with. Take a Deployment that is already stored and has an Update fault. The error is `Refused` when its stored replicas differ from the node spec's, and none otherwise. The contract leaves that case open, because earlier node specs with the same name could have changed the stored object.
- Reconcile.ReconcileNodeSpecs: the same open case as Reconcile.ReconcileDruidNodes.
- Reconcile.ReconileDruid: the same open case as Reconcile.ReconcileDruidNodes.
- Controller.ReconcileRequest: the node reconciliation's error is stated in full by Reconcile.ReconcileDruidNodes. In ReconcileRequest it is restated only as these cases: without faults there is no error; a refused read of the last StatefulSet or Deployment gives `Refused` and no requeue.
- The `cc` node spec that `Reconcile` passes to `reconileDruid` and `reconcileDruidNodes` is used only in log lines, and is left out.
- `nil` and empty maps and slices are not distinguished.
- Clients.Client.SetControllerReference: it appends one owner reference. The check that the object has no other controller is reduced to a per-key fault.
- pkg/validation is not part of this model. `Reconcile` (pkg/controller/druid/druid_controller.go:12) imports that package, and its `Validator` is the one called at pkg/controller/druid/druid_controller.go:118-119. The model calls pkg/controller/validation's `Validator` there instead. Controller.ReconcileRequest's validation-failed outcomes therefore hold only if the two validators agree.
- Go map iteration order is unspecified, so `c.Spec.Nodes` is a sequence and its range order is the sequence order.
- Go's `int32` fields (replicas, maxUnavailable, ports, the status counts) have the type `Types.int32`, a newtype bounded to Go's range. The model does no arithmetic on them, so there is no overflow to model.
