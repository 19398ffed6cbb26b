/**
 * The node reconciliation of pkg/controller/druid/reconcile.go: for every
 * node spec in the prescribed order, a get-then-create-or-update of its
 * workload, its Service and its two ConfigMaps against the client.
 *
 * The found branches update the object that was read, not the desired one:
 * the sync helpers they call only fill a copy that is dropped (module
 * ControllerSync), so of the desired state only a StatefulSet's or
 * Deployment's replica count ever reaches an existing object.
 */
module Reconcile {
  import opened Wrappers
  import opened Types
  import opened Clients
  import opened NodeOrder
  import Objects
  import Services
  import ControllerSync

  // ----- updateStatefulSet, updateCm, updateService -----

  /** `updateStatefulSet`: the sync result is dropped and the found object is written back as it is. */
  method UpdateStatefulSet(cl: Client, c: Druid, foundSts: Ref<StatefulSet>, sts: Ref<StatefulSet>)
    returns (err: Option<Error>)
    requires cl.Valid()
    modifies cl
    ensures cl.Valid()
    ensures cl.calls == old(cl.calls) + [UpdateCall(StatefulSetObject(foundSts.value))]
    ensures cl.gets == old(cl.gets)
    ensures var key := KeyOf(StatefulSetObject(foundSts.value));
      (key in cl.faults.update ==> err == Some(Refused) && cl.objects == old(cl.objects)) &&
      (key !in cl.faults.update && key !in old(cl.objects) ==> err == Some(NotFound) && cl.objects == old(cl.objects)) &&
      (key !in cl.faults.update && key in old(cl.objects) ==>
        err == None && cl.objects == old(cl.objects)[key := StatefulSetObject(foundSts.value)])
  {
    var _ := ControllerSync.SyncStatefulSet(foundSts, sts);
    err := cl.Update(StatefulSetObject(foundSts.value));
  }

  /** `updateCm`: the sync result is dropped and the found ConfigMap is written back as it is. */
  method UpdateCm(cl: Client, c: Druid, foundCm: Ref<ConfigMap>, cm: Ref<ConfigMap>) returns (err: Option<Error>)
    requires cl.Valid()
    modifies cl
    ensures cl.Valid()
    ensures cl.calls == old(cl.calls) + [UpdateCall(ConfigMapObject(foundCm.value))]
    ensures cl.gets == old(cl.gets)
    ensures var key := KeyOf(ConfigMapObject(foundCm.value));
      (key in cl.faults.update ==> err == Some(Refused) && cl.objects == old(cl.objects)) &&
      (key !in cl.faults.update && key !in old(cl.objects) ==> err == Some(NotFound) && cl.objects == old(cl.objects)) &&
      (key !in cl.faults.update && key in old(cl.objects) ==>
        err == None && cl.objects == old(cl.objects)[key := ConfigMapObject(foundCm.value)])
  {
    var _ := ControllerSync.SyncCm(foundCm, cm);
    err := cl.Update(ConfigMapObject(foundCm.value));
  }

  /** `updateService`: the sync result is dropped and the found Service is written back as it is. */
  method UpdateService(cl: Client, c: Druid, foundSvc: Ref<Service>, svc: Ref<Service>) returns (err: Option<Error>)
    requires cl.Valid()
    modifies cl
    ensures cl.Valid()
    ensures cl.calls == old(cl.calls) + [UpdateCall(ServiceObject(foundSvc.value))]
    ensures cl.gets == old(cl.gets)
    ensures var key := KeyOf(ServiceObject(foundSvc.value));
      (key in cl.faults.update ==> err == Some(Refused) && cl.objects == old(cl.objects)) &&
      (key !in cl.faults.update && key !in old(cl.objects) ==> err == Some(NotFound) && cl.objects == old(cl.objects)) &&
      (key !in cl.faults.update && key in old(cl.objects) ==>
        err == None && cl.objects == old(cl.objects)[key := ServiceObject(foundSvc.value)])
  {
    var _ := ControllerSync.SyncService(foundSvc, svc);
    err := cl.Update(ServiceObject(foundSvc.value));
  }

  /** The stored StatefulSet with the node's replica count, everything else as it was. */
  function Scaled(cur: StatefulSet, cc: NodeSpec): StatefulSet {
    cur.(spec := cur.spec.(replicas := cc.replicas))
  }

  /** The stored Deployment with the node's replica count, everything else as it was. */
  function ScaledDeployment(cur: Deployment, cc: NodeSpec): Deployment {
    cur.(spec := cur.spec.(replicas := cc.replicas))
  }

  // ----- the found branches -----

  /**
   * The found branch of `reconcileSts`: the read StatefulSet gets the node's
   * replica count, with a scaling Update only when it differed, and is then
   * written once more through `updateStatefulSet`.
   */
  method ScaleAndSyncStatefulSet(cl: Client, cc: NodeSpec, c: Druid, ssCur: Ref<StatefulSet>, sts: StatefulSet)
    returns (err: Option<Error>)
    requires cl.Valid()
    modifies cl, ssCur
    ensures cl.Valid()
    ensures ssCur.value == Scaled(old(ssCur.value), cc)
    ensures cl.gets == old(cl.gets)
    ensures var scaled := StatefulSetObject(Scaled(old(ssCur.value), cc)); var key := KeyOf(scaled);
      cl.calls == old(cl.calls)
        + (if cc.replicas != old(ssCur.value).spec.replicas then [UpdateCall(scaled)] else []) + [UpdateCall(scaled)] &&
      (key in cl.faults.update ==> err == Some(Refused) && cl.objects == old(cl.objects)) &&
      (key !in cl.faults.update && key in old(cl.objects) ==> err == None && cl.objects == old(cl.objects)[key := scaled])
  {
    if cc.replicas != ssCur.value.spec.replicas {
      ssCur.value := ssCur.value.(spec := ssCur.value.spec.(replicas := cc.replicas));
      err := cl.Update(StatefulSetObject(ssCur.value));
    }
    var desired := new Ref(sts);
    err := UpdateStatefulSet(cl, c, ssCur, desired);
  }

  /** The found branch of `reconcileDeployment`: one Update when the replica count differs. */
  method ScaleDeployment(cl: Client, cc: NodeSpec, dmCur: Ref<Deployment>) returns (err: Option<Error>)
    requires cl.Valid()
    modifies cl, dmCur
    ensures cl.Valid()
    ensures cl.gets == old(cl.gets)
    ensures var scaled := DeploymentObject(ScaledDeployment(old(dmCur.value), cc)); var key := KeyOf(scaled);
      (cc.replicas == old(dmCur.value).spec.replicas ==>
        err == None && cl.objects == old(cl.objects) && cl.calls == old(cl.calls)) &&
      (cc.replicas != old(dmCur.value).spec.replicas ==>
        cl.calls == old(cl.calls) + [UpdateCall(scaled)] &&
        (key in cl.faults.update ==> err == Some(Refused) && cl.objects == old(cl.objects)) &&
        (key !in cl.faults.update && key in old(cl.objects) ==> err == None && cl.objects == old(cl.objects)[key := scaled]))
  {
    err := None;
    if cc.replicas != dmCur.value.spec.replicas {
      dmCur.value := dmCur.value.(spec := dmCur.value.spec.(replicas := cc.replicas));
      err := cl.Update(DeploymentObject(dmCur.value));
    }
  }

  /** The found branch of `reconcileConfigMap`: the read ConfigMap is written back, directly and through `updateCm`. */
  method RewriteConfigMap(cl: Client, c: Druid, cmCur: Ref<ConfigMap>, cmCreate: ConfigMap) returns (err: Option<Error>)
    requires cl.Valid() && KeyOf(ConfigMapObject(cmCur.value)) in cl.objects
    requires cl.objects[KeyOf(ConfigMapObject(cmCur.value))] == ConfigMapObject(cmCur.value)
    modifies cl
    ensures cl.Valid() && cl.objects == old(cl.objects)
    ensures cl.gets == old(cl.gets)
    ensures var cur := ConfigMapObject(cmCur.value);
      cl.calls == old(cl.calls) + [UpdateCall(cur), UpdateCall(cur)] &&
      err == (if KeyOf(cur) in cl.faults.update then Some(Refused) else None)
  {
    err := cl.Update(ConfigMapObject(cmCur.value));
    var desired := new Ref(cmCreate);
    err := UpdateCm(cl, c, cmCur, desired);
  }

  /** The found branch of `reconcileService`: the read Service is written back, directly and through `updateService`. */
  method RewriteService(cl: Client, c: Druid, svcCur: Ref<Service>, svcCreate: Service) returns (err: Option<Error>)
    requires cl.Valid() && KeyOf(ServiceObject(svcCur.value)) in cl.objects
    requires cl.objects[KeyOf(ServiceObject(svcCur.value))] == ServiceObject(svcCur.value)
    modifies cl
    ensures cl.Valid() && cl.objects == old(cl.objects)
    ensures cl.gets == old(cl.gets)
    ensures var cur := ServiceObject(svcCur.value);
      cl.calls == old(cl.calls) + [UpdateCall(cur), UpdateCall(cur)] &&
      err == (if KeyOf(cur) in cl.faults.update then Some(Refused) else None)
  {
    err := cl.Update(ServiceObject(svcCur.value));
    var desired := new Ref(svcCreate);
    err := UpdateService(cl, c, svcCur, desired);
  }

  // ----- reconcileSts, reconcileDeployment, reconcileConfigMap, reconcileService -----

  /**
   * The NotFound branch shared by the four reconcilers: SetControllerReference
   * on the desired object, then one Create of the owned object unless that
   * failed.
   */
  method CreateOwned(cl: Client, c: Druid, obj: Object) returns (err: Option<Error>)
    requires cl.Valid() && KeyOf(obj) !in cl.objects
    modifies cl
    ensures cl.Valid()
    ensures cl.gets == old(cl.gets)
    ensures KeyOf(obj) in cl.faults.ownerRef ==>
      err == Some(OwnerRefused) && cl.objects == old(cl.objects) && cl.calls == old(cl.calls)
    ensures KeyOf(obj) !in cl.faults.ownerRef ==>
      cl.calls == old(cl.calls) + [CreateCall(Owned(obj, c))] &&
      (KeyOf(obj) in cl.faults.create ==> err == Some(Refused) && cl.objects == old(cl.objects)) &&
      (KeyOf(obj) !in cl.faults.create ==> err == None && cl.objects == old(cl.objects)[KeyOf(obj) := Owned(obj, c)])
  {
    var owned := cl.SetControllerReference(c, obj);
    if owned.Failure? {
      err := Some(owned.error);
    } else {
      err := cl.Create(owned.value);
    }
  }

  /**
   * `reconcileSts`. Missing: the desired StatefulSet, owned by the Druid
   * object, is created. Found: its replica count is set to the node's, with
   * one scaling Update when it differed, and then one more Update of that
   * same object; the error returned is the last Update's.
   */
  method ReconcileSts(cl: Client, cc: NodeSpec, c: Druid, sts: StatefulSet) returns (err: Option<Error>)
    requires cl.Valid()
    modifies cl
    ensures cl.Valid()
    ensures cl.gets == old(cl.gets) + [KeyOf(StatefulSetObject(sts))]
    ensures OnlyKeyChanged(old(cl.objects), cl.objects, KeyOf(StatefulSetObject(sts)))
    ensures NoFaults(cl.faults) ==> err == None && KeyOf(StatefulSetObject(sts)) in cl.objects
    ensures var key := KeyOf(StatefulSetObject(sts));
      key in cl.faults.get ==>
        err == Some(Refused) && cl.objects == old(cl.objects) && cl.calls == old(cl.calls) + [GetCall(key)]
    ensures var key := KeyOf(StatefulSetObject(sts));
      key !in cl.faults.get && key !in old(cl.objects) && key in cl.faults.ownerRef ==>
        err == Some(OwnerRefused) && cl.objects == old(cl.objects) && cl.calls == old(cl.calls) + [GetCall(key)]
    ensures var key := KeyOf(StatefulSetObject(sts)); var owned := Owned(StatefulSetObject(sts), c);
      key !in cl.faults.get && key !in old(cl.objects) && key !in cl.faults.ownerRef ==>
        cl.calls == old(cl.calls) + [GetCall(key), CreateCall(owned)] &&
        (key in cl.faults.create ==> err == Some(Refused) && cl.objects == old(cl.objects)) &&
        (key !in cl.faults.create ==> err == None && cl.objects == old(cl.objects)[key := owned])
    ensures var key := KeyOf(StatefulSetObject(sts));
      key !in cl.faults.get && key in old(cl.objects) ==>
        old(cl.objects)[key].StatefulSetObject? &&
        var cur := old(cl.objects)[key].sts;
        var scaled := StatefulSetObject(Scaled(cur, cc));
        cl.calls == old(cl.calls) + [GetCall(key)]
          + (if cc.replicas != cur.spec.replicas then [UpdateCall(scaled)] else []) + [UpdateCall(scaled)] &&
        (key in cl.faults.update ==> err == Some(Refused) && cl.objects == old(cl.objects)) &&
        (key !in cl.faults.update ==> err == None && cl.objects == old(cl.objects)[key := scaled])
  {
    var key := KeyOf(StatefulSetObject(sts));
    var got := cl.Get(key);
    if got.Failure? && got.error == NotFound {
      err := CreateOwned(cl, c, StatefulSetObject(sts));
    } else if got.Failure? {
      err := Some(got.error);
    } else {
      var ssCur := new Ref(got.value.sts);
      err := ScaleAndSyncStatefulSet(cl, cc, c, ssCur, sts);
    }
  }

  /**
   * `reconcileDeployment`. Missing: the desired Deployment, owned by the
   * Druid object, is created. Found: one Update setting the node's replica
   * count when it differed, no call at all otherwise; the template is never
   * compared.
   */
  method ReconcileDeployment(cl: Client, cc: NodeSpec, c: Druid, dmCreate: Deployment) returns (err: Option<Error>)
    requires cl.Valid()
    modifies cl
    ensures cl.Valid()
    ensures cl.gets == old(cl.gets) + [KeyOf(DeploymentObject(dmCreate))]
    ensures OnlyKeyChanged(old(cl.objects), cl.objects, KeyOf(DeploymentObject(dmCreate)))
    ensures NoFaults(cl.faults) ==> err == None && KeyOf(DeploymentObject(dmCreate)) in cl.objects
    ensures var key := KeyOf(DeploymentObject(dmCreate));
      key in cl.faults.get ==>
        err == Some(Refused) && cl.objects == old(cl.objects) && cl.calls == old(cl.calls) + [GetCall(key)]
    ensures var key := KeyOf(DeploymentObject(dmCreate));
      key !in cl.faults.get && key !in old(cl.objects) && key in cl.faults.ownerRef ==>
        err == Some(OwnerRefused) && cl.objects == old(cl.objects) && cl.calls == old(cl.calls) + [GetCall(key)]
    ensures var key := KeyOf(DeploymentObject(dmCreate)); var owned := Owned(DeploymentObject(dmCreate), c);
      key !in cl.faults.get && key !in old(cl.objects) && key !in cl.faults.ownerRef ==>
        cl.calls == old(cl.calls) + [GetCall(key), CreateCall(owned)] &&
        (key in cl.faults.create ==> err == Some(Refused) && cl.objects == old(cl.objects)) &&
        (key !in cl.faults.create ==> err == None && cl.objects == old(cl.objects)[key := owned])
    ensures var key := KeyOf(DeploymentObject(dmCreate));
      key !in cl.faults.get && key in old(cl.objects) ==>
        old(cl.objects)[key].DeploymentObject? &&
        var cur := old(cl.objects)[key].deployment;
        var scaled := DeploymentObject(ScaledDeployment(cur, cc));
        (cc.replicas == cur.spec.replicas ==>
          err == None && cl.objects == old(cl.objects) && cl.calls == old(cl.calls) + [GetCall(key)]) &&
        (cc.replicas != cur.spec.replicas ==>
          cl.calls == old(cl.calls) + [GetCall(key), UpdateCall(scaled)] &&
          (key in cl.faults.update ==> err == Some(Refused) && cl.objects == old(cl.objects)) &&
          (key !in cl.faults.update ==> err == None && cl.objects == old(cl.objects)[key := scaled]))
  {
    var key := KeyOf(DeploymentObject(dmCreate));
    var got := cl.Get(key);
    if got.Failure? && got.error == NotFound {
      err := CreateOwned(cl, c, DeploymentObject(dmCreate));
    } else if got.Failure? {
      err := Some(got.error);
    } else {
      var dmCur := new Ref(got.value.deployment);
      err := ScaleDeployment(cl, cc, dmCur);
    }
  }

  /**
   * `reconcileConfigMap`. Missing: the desired ConfigMap, owned by the
   * Druid object, is created. Found: the ConfigMap that was read is written
   * back twice, so the stored one never changes.
   */
  method ReconcileConfigMap(cl: Client, cc: NodeSpec, c: Druid, cmCreate: ConfigMap) returns (err: Option<Error>)
    requires cl.Valid()
    modifies cl
    ensures cl.Valid()
    ensures cl.gets == old(cl.gets) + [KeyOf(ConfigMapObject(cmCreate))]
    ensures OnlyKeyChanged(old(cl.objects), cl.objects, KeyOf(ConfigMapObject(cmCreate)))
    ensures NoFaults(cl.faults) ==> err == None && KeyOf(ConfigMapObject(cmCreate)) in cl.objects
    ensures var key := KeyOf(ConfigMapObject(cmCreate));
      key in cl.faults.get ==>
        err == Some(Refused) && cl.objects == old(cl.objects) && cl.calls == old(cl.calls) + [GetCall(key)]
    ensures var key := KeyOf(ConfigMapObject(cmCreate));
      key !in cl.faults.get && key !in old(cl.objects) && key in cl.faults.ownerRef ==>
        err == Some(OwnerRefused) && cl.objects == old(cl.objects) && cl.calls == old(cl.calls) + [GetCall(key)]
    ensures var key := KeyOf(ConfigMapObject(cmCreate)); var owned := Owned(ConfigMapObject(cmCreate), c);
      key !in cl.faults.get && key !in old(cl.objects) && key !in cl.faults.ownerRef ==>
        cl.calls == old(cl.calls) + [GetCall(key), CreateCall(owned)] &&
        (key in cl.faults.create ==> err == Some(Refused) && cl.objects == old(cl.objects)) &&
        (key !in cl.faults.create ==> err == None && cl.objects == old(cl.objects)[key := owned])
    ensures var key := KeyOf(ConfigMapObject(cmCreate));
      key !in cl.faults.get && key in old(cl.objects) ==>
        var cur := old(cl.objects)[key];
        cl.calls == old(cl.calls) + [GetCall(key), UpdateCall(cur), UpdateCall(cur)] &&
        cl.objects == old(cl.objects) &&
        err == (if key in cl.faults.update then Some(Refused) else None)
  {
    var key := KeyOf(ConfigMapObject(cmCreate));
    var got := cl.Get(key);
    if got.Failure? && got.error == NotFound {
      err := CreateOwned(cl, c, ConfigMapObject(cmCreate));
    } else if got.Failure? {
      err := Some(got.error);
    } else {
      var cmCur := new Ref(got.value.cm);
      err := RewriteConfigMap(cl, c, cmCur, cmCreate);
    }
  }

  /**
   * `reconcileService`. Missing: the desired Service, owned by the Druid
   * object, is created. Found: the Service that was read is written back
   * twice, so the stored one never changes.
   */
  method ReconcileService(cl: Client, cc: NodeSpec, c: Druid, svcCreate: Service) returns (err: Option<Error>)
    requires cl.Valid()
    modifies cl
    ensures cl.Valid()
    ensures cl.gets == old(cl.gets) + [KeyOf(ServiceObject(svcCreate))]
    ensures OnlyKeyChanged(old(cl.objects), cl.objects, KeyOf(ServiceObject(svcCreate)))
    ensures NoFaults(cl.faults) ==> err == None && KeyOf(ServiceObject(svcCreate)) in cl.objects
    ensures var key := KeyOf(ServiceObject(svcCreate));
      key in cl.faults.get ==>
        err == Some(Refused) && cl.objects == old(cl.objects) && cl.calls == old(cl.calls) + [GetCall(key)]
    ensures var key := KeyOf(ServiceObject(svcCreate));
      key !in cl.faults.get && key !in old(cl.objects) && key in cl.faults.ownerRef ==>
        err == Some(OwnerRefused) && cl.objects == old(cl.objects) && cl.calls == old(cl.calls) + [GetCall(key)]
    ensures var key := KeyOf(ServiceObject(svcCreate)); var owned := Owned(ServiceObject(svcCreate), c);
      key !in cl.faults.get && key !in old(cl.objects) && key !in cl.faults.ownerRef ==>
        cl.calls == old(cl.calls) + [GetCall(key), CreateCall(owned)] &&
        (key in cl.faults.create ==> err == Some(Refused) && cl.objects == old(cl.objects)) &&
        (key !in cl.faults.create ==> err == None && cl.objects == old(cl.objects)[key := owned])
    ensures var key := KeyOf(ServiceObject(svcCreate));
      key !in cl.faults.get && key in old(cl.objects) ==>
        var cur := old(cl.objects)[key];
        cl.calls == old(cl.calls) + [GetCall(key), UpdateCall(cur), UpdateCall(cur)] &&
        cl.objects == old(cl.objects) &&
        err == (if key in cl.faults.update then Some(Refused) else None)
  {
    var key := KeyOf(ServiceObject(svcCreate));
    var got := cl.Get(key);
    if got.Failure? && got.error == NotFound {
      err := CreateOwned(cl, c, ServiceObject(svcCreate));
    } else if got.Failure? {
      err := Some(got.error);
    } else {
      var svcCur := new Ref(got.value.svc);
      err := RewriteService(cl, c, svcCur, svcCreate);
    }
  }

  // ----- reconcileDruidNodes -----

  /** Node types whose workload is a StatefulSet. */
  predicate IsStatefulType(t: string) {
    t == Historical || t == MiddleManager
  }

  /** Node types whose workload is a Deployment. */
  predicate IsDeploymentType(t: string) {
    t == Overlord || t == Router || t == Broker || t == Coordinator
  }

  /** Node types that have a workload (StatefulSet or Deployment) at all. */
  predicate IsWorkloadType(t: string) {
    IsStatefulType(t) || IsDeploymentType(t)
  }

  /** Every known node type but the indexer has a workload; the indexer is only given its Service and ConfigMaps. */
  lemma WorkloadTypes(t: string)
    ensures IsWorkloadType(t) <==> IsNodeType(t) && t != Indexer
  {
  }

  /**
   * The objects one node spec's reconciliation reads, in order: its
   * StatefulSet or Deployment (neither for an indexer), its Service, its
   * node ConfigMap and the common ConfigMap.
   */
  function NodeGets(ns: NodeSpec, c: Druid, cmNode: (NodeSpec, Druid) -> ConfigMap, cmCommon: (NodeSpec, Druid) -> ConfigMap): seq<Key> {
    WorkloadGets(ns, c) + SupportGets(ns, c, cmNode, cmCommon)
  }

  /** The same objects as a set. */
  function NodeKeys(ns: NodeSpec, c: Druid, cmNode: (NodeSpec, Druid) -> ConfigMap,
                    cmCommon: (NodeSpec, Druid) -> ConfigMap): set<Key>
  {
    (if IsStatefulType(ns.nodeType) then {Key(StatefulSetKind, c.meta.namespace, Objects.NodeName(ns))} else {})
    + (if IsDeploymentType(ns.nodeType) then {Key(DeploymentKind, c.meta.namespace, Objects.NodeName(ns))} else {})
    + {Key(ServiceKind, c.meta.namespace, ns.name),
       KeyOf(ConfigMapObject(cmNode(ns, c))),
       KeyOf(ConfigMapObject(cmCommon(ns, c)))}
  }

  lemma NodeKeysAreNodeGets(ns: NodeSpec, c: Druid, cmNode: (NodeSpec, Druid) -> ConfigMap,
                            cmCommon: (NodeSpec, Druid) -> ConfigMap)
    ensures forall k :: k in NodeKeys(ns, c, cmNode, cmCommon) <==> k in NodeGets(ns, c, cmNode, cmCommon)
  {
  }

  /** All objects read for the first `n` node specs of `order`. */
  function PlannedKeys(order: seq<KeyAndNodeSpec>, n: nat, c: Druid,
                       cmNode: (NodeSpec, Druid) -> ConfigMap, cmCommon: (NodeSpec, Druid) -> ConfigMap): set<Key>
    requires n <= |order|
  {
    if n == 0 then {}
    else PlannedKeys(order, n - 1, c, cmNode, cmCommon) + NodeKeys(order[n - 1].1, c, cmNode, cmCommon)
  }

  lemma {:induction false} PlannedKeysCover(order: seq<KeyAndNodeSpec>, n: nat, j: nat, c: Druid,
                                            cmNode: (NodeSpec, Druid) -> ConfigMap,
                                            cmCommon: (NodeSpec, Druid) -> ConfigMap)
    requires j < n <= |order|
    ensures NodeKeys(order[j].1, c, cmNode, cmCommon) <= PlannedKeys(order, n, c, cmNode, cmCommon)
    decreases n
  {
    if j < n - 1 {
      PlannedKeysCover(order, n - 1, j, c, cmNode, cmCommon);
    }
  }

  /** The objects read for the first `n` node specs of `order`, node spec by node spec. */
  function PlannedGets(order: seq<KeyAndNodeSpec>, n: nat, c: Druid,
                       cmNode: (NodeSpec, Druid) -> ConfigMap, cmCommon: (NodeSpec, Druid) -> ConfigMap): seq<Key>
    requires n <= |order|
  {
    if n == 0 then []
    else PlannedGets(order, n - 1, c, cmNode, cmCommon) + NodeGets(order[n - 1].1, c, cmNode, cmCommon)
  }

  /** The workload objects (StatefulSet or Deployment) a node spec's reconciliation reads. */
  function WorkloadGets(ns: NodeSpec, c: Druid): seq<Key> {
    (if IsStatefulType(ns.nodeType) then [Key(StatefulSetKind, c.meta.namespace, Objects.NodeName(ns))] else [])
    + (if IsDeploymentType(ns.nodeType) then [Key(DeploymentKind, c.meta.namespace, Objects.NodeName(ns))] else [])
  }

  /** The Service and ConfigMaps a node spec's reconciliation reads. */
  function SupportGets(ns: NodeSpec, c: Druid, cmNode: (NodeSpec, Druid) -> ConfigMap,
                       cmCommon: (NodeSpec, Druid) -> ConfigMap): seq<Key>
  {
    [Key(ServiceKind, c.meta.namespace, ns.name),
     KeyOf(ConfigMapObject(cmNode(ns, c))),
     KeyOf(ConfigMapObject(cmCommon(ns, c)))]
  }

  /** Regrouping a concatenation, for the loop's record of reads. */
  lemma AppendAssoc<T>(a: seq<T>, b: seq<T>, d: seq<T>)
    ensures (a + b) + d == a + (b + d)
  {
  }

  /** The key of the workload object of a node spec of a workload type. */
  function WorkloadKey(ns: NodeSpec, c: Druid): Key {
    if IsStatefulType(ns.nodeType) then Key(StatefulSetKind, c.meta.namespace, Objects.NodeName(ns))
    else Key(DeploymentKind, c.meta.namespace, Objects.NodeName(ns))
  }

  /** No fault is injected on any call about the workload object of `ns`. */
  predicate WorkloadClean(f: Faults, ns: NodeSpec, c: Druid) {
    var k := WorkloadKey(ns, c);
    k !in f.get && k !in f.ownerRef && k !in f.create && k !in f.update
  }

  /**
   * The error `reconcileSts` or `reconcileDeployment` returns for the
   * workload of `ns`, starting from the store `objects`: a failed Get, a
   * failed owner reference or Create of a missing object, or a failed
   * Update of a found one. A found Deployment with the right replica count
   * is not written at all.
   */
  function WorkloadError(objects: map<Key, Object>, f: Faults, ns: NodeSpec, c: Druid): Option<Error> {
    var k := WorkloadKey(ns, c);
    if k in f.get then Some(Refused)
    else if k !in objects then
      (if k in f.ownerRef then Some(OwnerRefused) else if k in f.create then Some(Refused) else None)
    else if IsDeploymentType(ns.nodeType) && objects[k].DeploymentObject? &&
            objects[k].deployment.spec.replicas == ns.replicas then None
    else if k in f.update then Some(Refused)
    else None
  }

  /** The index of the last node spec among the first `n` that has a workload. */
  function LastWorkload(all: seq<KeyAndNodeSpec>, n: nat): (r: Option<nat>)
    requires n <= |all|
    ensures r.Some? ==> r.value < n && IsWorkloadType(all[r.value].1.nodeType)
    ensures r.Some? ==> forall j | r.value < j < n :: !IsWorkloadType(all[j].1.nodeType)
    ensures r.None? ==> forall j | 0 <= j < n :: !IsWorkloadType(all[j].1.nodeType)
  {
    if n == 0 then None
    else if IsWorkloadType(all[n - 1].1.nodeType) then Some(n - 1)
    else LastWorkload(all, n - 1)
  }

  /**
   * The error of the loop after the first `n` node specs: none when none of
   * them has a workload, and otherwise what the last workload reconcile
   * returns from a store that holds every key in `keys0` (the keys the loop
   * started with). Which store that is beyond these keys is not stated.
   * Earlier workload errors, and every Service and ConfigMap error, are lost.
   */
  ghost predicate LastWorkloadError(f: Faults, all: seq<KeyAndNodeSpec>, n: nat, c: Druid, err: Option<Error>,
                                    keys0: set<Key>)
    requires n <= |all|
  {
    match LastWorkload(all, n)
    case None => err == None
    case Some(j) => exists objects: map<Key, Object> :: keys0 <= objects.Keys && err == WorkloadError(objects, f, all[j].1, c)
  }

  /** The loop's error, with `seen` the store the last workload reconcile started from. */
  ghost predicate ErrorTracked(f: Faults, all: seq<KeyAndNodeSpec>, n: nat, c: Druid, err: Option<Error>,
                               seen: map<Key, Object>)
    requires n <= |all|
  {
    match LastWorkload(all, n)
    case None => err == None
    case Some(j) => err == WorkloadError(seen, f, all[j].1, c)
  }

  /** One pass of the loop: a workload node spec sets the error, any other keeps it. */
  lemma ErrorTrackedStep(f: Faults, all: seq<KeyAndNodeSpec>, i: nat, c: Druid, err0: Option<Error>,
                         seen: map<Key, Object>, before: map<Key, Object>, err: Option<Error>)
    requires i < |all| && ErrorTracked(f, all, i, c, err0, seen)
    requires err == if IsWorkloadType(all[i].1.nodeType) then WorkloadError(before, f, all[i].1, c) else err0
    ensures ErrorTracked(f, all, i + 1, c, err, if IsWorkloadType(all[i].1.nodeType) then before else seen)
  {
  }

  /** After the loop, the tracked error is the last workload reconcile's. */
  lemma ErrorTrackedDone(f: Faults, all: seq<KeyAndNodeSpec>, n: nat, c: Druid, err: Option<Error>,
                         seen: map<Key, Object>, keys0: set<Key>)
    requires n <= |all| && ErrorTracked(f, all, n, c, err, seen) && keys0 <= seen.Keys
    ensures LastWorkloadError(f, all, n, c, err, keys0)
    ensures NoFaults(f) ==> err == None
  {
  }

  /**
   * A clean last workload means no error; a refused Get of it means that
   * error. When its object was already stored, only the Get and Update
   * faults matter: a StatefulSet is always updated, so an Update fault on it
   * is returned.
   */
  lemma LastWorkloadErrorCases(f: Faults, all: seq<KeyAndNodeSpec>, n: nat, c: Druid, err: Option<Error>,
                               keys0: set<Key>)
    requires n <= |all| && LastWorkloadError(f, all, n, c, err, keys0)
    ensures LastWorkload(all, n).Some? && WorkloadClean(f, all[LastWorkload(all, n).value].1, c) ==> err == None
    ensures LastWorkload(all, n).Some? && WorkloadKey(all[LastWorkload(all, n).value].1, c) in f.get ==>
      err == Some(Refused)
    ensures LastWorkload(all, n).Some? ==>
      var k := WorkloadKey(all[LastWorkload(all, n).value].1, c);
      (k in keys0 && k !in f.get && k !in f.update ==> err == None)
    ensures LastWorkload(all, n).Some? ==>
      var ns := all[LastWorkload(all, n).value].1;
      var k := WorkloadKey(ns, c);
      (IsStatefulType(ns.nodeType) && k in keys0 && k !in f.get && k in f.update ==> err == Some(Refused))
    ensures LastWorkload(all, n).None? ==> err == None
  {
    if LastWorkload(all, n).Some? {
      var objects: map<Key, Object> :| keys0 <= objects.Keys && err == WorkloadError(objects, f, all[LastWorkload(all, n).value].1, c);
    }
  }
  /** The objects of the prescribed order's loop are those of every node spec. */
  lemma EveryNodePlanned(nodes: seq<KeyAndNodeSpec>, c: Druid, cmNode: (NodeSpec, Druid) -> ConfigMap,
                         cmCommon: (NodeSpec, Druid) -> ConfigMap, keys: set<Key>)
    requires AllKnown(nodes) && PlannedKeys(Ordered(nodes), |Ordered(nodes)|, c, cmNode, cmCommon) <= keys
    ensures forall x | x in nodes :: NodeKeys(x.1, c, cmNode, cmCommon) <= keys
  {
    var all := Ordered(nodes);
    OrderedIsPermutation(nodes);
    forall x | x in nodes
      ensures NodeKeys(x.1, c, cmNode, cmCommon) <= keys
    {
      assert x in multiset(nodes);
      assert x in all;
      var j :| 0 <= j < |all| && all[j] == x;
      PlannedKeysCover(all, |all|, j, c, cmNode, cmCommon);
    }
  }

  /**
   * When no StatefulSet or Deployment of a node spec is refused, the node
   * reconciliation reports no error, whatever the Services and ConfigMaps did.
   */
  lemma CleanWorkloadsNoError(f: Faults, nodes: seq<KeyAndNodeSpec>, c: Druid, err: Option<Error>, keys0: set<Key>)
    requires AllKnown(nodes) && LastWorkloadError(f, Ordered(nodes), |Ordered(nodes)|, c, err, keys0)
    ensures (forall x | x in nodes && IsWorkloadType(x.1.nodeType) :: WorkloadClean(f, x.1, c)) ==> err == None
  {
    var all := Ordered(nodes);
    LastWorkloadErrorCases(f, all, |all|, c, err, keys0);
    if LastWorkload(all, |all|).Some? && forall x | x in nodes && IsWorkloadType(x.1.nodeType) :: WorkloadClean(f, x.1, c) {
      var j := LastWorkload(all, |all|).value;
      OrderedIsPermutation(nodes);
      assert all[j] in multiset(all);
      assert all[j] in nodes;
    }
  }


  /** The StatefulSet statement of the loop: its error replaces `err0`. */
  method ReconcileNodeSts(cl: Client, ns: NodeSpec, c: Druid, err0: Option<Error>) returns (err: Option<Error>)
    requires cl.Valid() && IsStatefulType(ns.nodeType)
    modifies cl
    ensures cl.Valid()
    ensures cl.gets == old(cl.gets) + WorkloadGets(ns, c)
    ensures old(cl.objects).Keys <= cl.objects.Keys
    ensures DruidsOf(old(cl.objects)) == DruidsOf(cl.objects)
    ensures err == WorkloadError(old(cl.objects), cl.faults, ns, c)
    ensures NoFaults(cl.faults) ==> err == None && Key(StatefulSetKind, c.meta.namespace, Objects.NodeName(ns)) in cl.objects
  {
    var sts := Objects.MakeStatefulSet(ns, c);
    err := ReconcileSts(cl, ns, c, sts);
    OnlyKeyChangedKeepsDruids(old(cl.objects), cl.objects, KeyOf(StatefulSetObject(sts)));
  }

  /** The Deployment statement of the loop: its error replaces `err0`. */
  method ReconcileNodeDeployment(cl: Client, ns: NodeSpec, c: Druid, err0: Option<Error>) returns (err: Option<Error>)
    requires cl.Valid() && IsDeploymentType(ns.nodeType)
    modifies cl
    ensures cl.Valid()
    ensures cl.gets == old(cl.gets) + WorkloadGets(ns, c)
    ensures old(cl.objects).Keys <= cl.objects.Keys
    ensures DruidsOf(old(cl.objects)) == DruidsOf(cl.objects)
    ensures err == WorkloadError(old(cl.objects), cl.faults, ns, c)
    ensures NoFaults(cl.faults) ==> err == None && Key(DeploymentKind, c.meta.namespace, Objects.NodeName(ns)) in cl.objects
  {
    var d := Objects.MakeDeployment(ns, c);
    err := ReconcileDeployment(cl, ns, c, d);
    OnlyKeyChangedKeepsDruids(old(cl.objects), cl.objects, KeyOf(DeploymentObject(d)));
  }

  /** The Service statement of the loop; its error is dropped. */
  method ReconcileNodeService(cl: Client, ns: NodeSpec, c: Druid)
    requires cl.Valid()
    modifies cl
    ensures cl.Valid()
    ensures cl.gets == old(cl.gets) + [Key(ServiceKind, c.meta.namespace, ns.name)]
    ensures old(cl.objects).Keys <= cl.objects.Keys
    ensures DruidsOf(old(cl.objects)) == DruidsOf(cl.objects)
    ensures NoFaults(cl.faults) ==> Key(ServiceKind, c.meta.namespace, ns.name) in cl.objects
  {
    var druidSvc := Services.MakeService(ns, c);
    var _ := ReconcileService(cl, ns, c, druidSvc);
    OnlyKeyChangedKeepsDruids(old(cl.objects), cl.objects, KeyOf(ServiceObject(druidSvc)));
  }

  /** A ConfigMap statement of the loop; its error is dropped. */
  method ReconcileNodeConfigMap(cl: Client, ns: NodeSpec, c: Druid, cm: ConfigMap)
    requires cl.Valid()
    modifies cl
    ensures cl.Valid()
    ensures cl.gets == old(cl.gets) + [KeyOf(ConfigMapObject(cm))]
    ensures old(cl.objects).Keys <= cl.objects.Keys
    ensures DruidsOf(old(cl.objects)) == DruidsOf(cl.objects)
    ensures NoFaults(cl.faults) ==> KeyOf(ConfigMapObject(cm)) in cl.objects
  {
    var _ := ReconcileConfigMap(cl, ns, c, cm);
    OnlyKeyChangedKeepsDruids(old(cl.objects), cl.objects, KeyOf(ConfigMapObject(cm)));
  }

  /** The Service and the two ConfigMap statements of the loop; their errors are dropped. */
  method ReconcileNodeSupport(cl: Client, ns: NodeSpec, c: Druid, cmNode: (NodeSpec, Druid) -> ConfigMap,
                              cmCommon: (NodeSpec, Druid) -> ConfigMap)
    requires cl.Valid()
    modifies cl
    ensures cl.Valid()
    ensures cl.gets == old(cl.gets) + SupportGets(ns, c, cmNode, cmCommon)
    ensures old(cl.objects).Keys <= cl.objects.Keys
    ensures DruidsOf(old(cl.objects)) == DruidsOf(cl.objects)
    ensures NoFaults(cl.faults) ==> forall k | k in SupportGets(ns, c, cmNode, cmCommon) :: k in cl.objects
  {
    var cmN := cmNode(ns, c);
    var cmC := cmCommon(ns, c);
    ReconcileNodeService(cl, ns, c);
    ReconcileNodeConfigMap(cl, ns, c, cmN);
    ReconcileNodeConfigMap(cl, ns, c, cmC);
  }

  /**
   * One pass of the loop of `reconcileDruidNodes` for the node spec `ns`.
   * `err` is the loop's error variable: a StatefulSet or Deployment
   * reconcile overwrites it, an indexer leaves it as it was, and the
   * Service and ConfigMap results are dropped.
   */
  method ReconcileNodeSpec(cl: Client, ns: NodeSpec, c: Druid, cmNode: (NodeSpec, Druid) -> ConfigMap,
                           cmCommon: (NodeSpec, Druid) -> ConfigMap, err0: Option<Error>)
    returns (err: Option<Error>)
    requires cl.Valid()
    modifies cl
    ensures cl.Valid()
    ensures cl.gets == old(cl.gets) + NodeGets(ns, c, cmNode, cmCommon)
    ensures old(cl.objects).Keys <= cl.objects.Keys
    ensures DruidsOf(old(cl.objects)) == DruidsOf(cl.objects)
    ensures err == if IsWorkloadType(ns.nodeType) then WorkloadError(old(cl.objects), cl.faults, ns, c) else err0
    ensures NoFaults(cl.faults) ==>
      (err0 == None ==> err == None) && NodeKeys(ns, c, cmNode, cmCommon) <= cl.objects.Keys
  {
    err := err0;
    if IsStatefulType(ns.nodeType) {
      err := ReconcileNodeSts(cl, ns, c, err);
    }
    if IsDeploymentType(ns.nodeType) {
      err := ReconcileNodeDeployment(cl, ns, c, err);
    }
    ghost var g1 := cl.gets;
    ReconcileNodeSupport(cl, ns, c, cmNode, cmCommon);
    assert cl.gets == g1 + SupportGets(ns, c, cmNode, cmCommon);
  }

  /**
   * What the loop of `reconcileDruidNodes` has done after the first `i`
   * node specs of `all`, for a client that started with `gets0` and `objects0`.
   */
  ghost predicate NodesDone(cl: Client, gets0: seq<Key>, objects0: map<Key, Object>, all: seq<KeyAndNodeSpec>, i: nat,
                            c: Druid, cmNode: (NodeSpec, Druid) -> ConfigMap, cmCommon: (NodeSpec, Druid) -> ConfigMap,
                            err: Option<Error>, seen: map<Key, Object>)
    reads cl
    requires i <= |all|
  {
    && cl.Valid()
    && cl.gets == gets0 + PlannedGets(all, i, c, cmNode, cmCommon)
    && objects0.Keys <= cl.objects.Keys
    && DruidsOf(objects0) == DruidsOf(cl.objects)
    && ErrorTracked(cl.faults, all, i, c, err, seen)
    && objects0.Keys <= seen.Keys
    && (NoFaults(cl.faults) ==> PlannedKeys(all, i, c, cmNode, cmCommon) <= cl.objects.Keys)
  }

  /** Before the loop nothing is done yet. */
  lemma NodesDoneStart(cl: Client, all: seq<KeyAndNodeSpec>, c: Druid,
                       cmNode: (NodeSpec, Druid) -> ConfigMap, cmCommon: (NodeSpec, Druid) -> ConfigMap)
    requires cl.Valid()
    ensures NodesDone(cl, cl.gets, cl.objects, all, 0, c, cmNode, cmCommon, None, cl.objects)
  {
    assert cl.gets + [] == cl.gets;
  }

  /** Pass `i` of the loop: the first `i + 1` node specs are done. */
  method ReconcileNodeStep(cl: Client, ghost gets0: seq<Key>, ghost objects0: map<Key, Object>,
                           all: seq<KeyAndNodeSpec>, i: nat, c: Druid,
                           cmNode: (NodeSpec, Druid) -> ConfigMap, cmCommon: (NodeSpec, Druid) -> ConfigMap,
                           err0: Option<Error>, ghost seen0: map<Key, Object>)
    returns (err: Option<Error>, ghost seen: map<Key, Object>)
    requires i < |all| && NodesDone(cl, gets0, objects0, all, i, c, cmNode, cmCommon, err0, seen0)
    modifies cl
    ensures NodesDone(cl, gets0, objects0, all, i + 1, c, cmNode, cmCommon, err, seen)
  {
    ghost var before := cl.objects;
    err := ReconcileNodeSpec(cl, all[i].1, c, cmNode, cmCommon, err0);
    AppendAssoc(gets0, PlannedGets(all, i, c, cmNode, cmCommon), NodeGets(all[i].1, c, cmNode, cmCommon));
    ErrorTrackedStep(cl.faults, all, i, c, err0, seen0, before, err);
    seen := if IsWorkloadType(all[i].1.nodeType) then before else seen0;
  }

  /**
   * The loop of `reconcileDruidNodes` over an already ordered list: every
   * node spec is reconciled in turn, whatever happened to the ones before,
   * and the error is the last workload reconcile's.
   */
  method ReconcileNodeSpecs(cl: Client, all: seq<KeyAndNodeSpec>, c: Druid, cmNode: (NodeSpec, Druid) -> ConfigMap,
                            cmCommon: (NodeSpec, Druid) -> ConfigMap)
    returns (err: Option<Error>)
    requires cl.Valid()
    modifies cl
    ensures cl.Valid()
    ensures cl.gets == old(cl.gets) + PlannedGets(all, |all|, c, cmNode, cmCommon)
    ensures all == [] ==> err == None && cl.calls == old(cl.calls) && cl.objects == old(cl.objects)
    ensures old(cl.objects).Keys <= cl.objects.Keys
    ensures DruidsOf(old(cl.objects)) == DruidsOf(cl.objects)
    ensures LastWorkloadError(cl.faults, all, |all|, c, err, old(cl.objects).Keys)
    ensures NoFaults(cl.faults) ==> err == None
    ensures NoFaults(cl.faults) ==> PlannedKeys(all, |all|, c, cmNode, cmCommon) <= cl.objects.Keys
  {
    err := None;
    if all == [] {
      return;
    }
    ghost var seen;
    err, seen := ReconcileEachNodeSpec(cl, all, c, cmNode, cmCommon);
    ErrorTrackedDone(cl.faults, all, |all|, c, err, seen, old(cl.objects).Keys);
  }

  /** The loop itself: after it, all node specs of `all` are done. */
  method ReconcileEachNodeSpec(cl: Client, all: seq<KeyAndNodeSpec>, c: Druid, cmNode: (NodeSpec, Druid) -> ConfigMap,
                               cmCommon: (NodeSpec, Druid) -> ConfigMap)
    returns (err: Option<Error>, ghost seen: map<Key, Object>)
    requires cl.Valid()
    modifies cl
    ensures NodesDone(cl, old(cl.gets), old(cl.objects), all, |all|, c, cmNode, cmCommon, err, seen)
  {
    err := None;
    seen := cl.objects;
    NodesDoneStart(cl, all, c, cmNode, cmCommon);
    var i := 0;
    while i < |all|
      invariant 0 <= i <= |all|
      invariant NodesDone(cl, old(cl.gets), old(cl.objects), all, i, c, cmNode, cmCommon, err, seen)
    {
      err, seen := ReconcileNodeStep(cl, old(cl.gets), old(cl.objects), all, i, c, cmNode, cmCommon, err, seen);
      i := i + 1;
    }
  }

  /**
   * `reconcileDruidNodes`. An unknown node type makes the ordering fail; the
   * error is dropped and nothing is reconciled. Otherwise every node spec,
   * in the prescribed order, has its objects read and created or updated,
   * whatever happened to the node specs before it. The error returned is
   * the loop variable after the last node spec: the error of the last
   * StatefulSet or Deployment reconcile, which masks the earlier ones.
   */
  method ReconcileDruidNodes(cl: Client, c: Druid, cmNode: (NodeSpec, Druid) -> ConfigMap,
                             cmCommon: (NodeSpec, Druid) -> ConfigMap)
    returns (err: Option<Error>)
    requires cl.Valid()
    modifies cl
    ensures cl.Valid()
    ensures !AllKnown(c.spec.nodes) ==>
      err == None && cl.calls == old(cl.calls) && cl.objects == old(cl.objects) && cl.gets == old(cl.gets)
    ensures AllKnown(c.spec.nodes) ==>
      cl.gets == old(cl.gets) + PlannedGets(Ordered(c.spec.nodes), |Ordered(c.spec.nodes)|, c, cmNode, cmCommon)
    ensures old(cl.objects).Keys <= cl.objects.Keys
    ensures DruidsOf(old(cl.objects)) == DruidsOf(cl.objects)
    ensures NoFaults(cl.faults) ==> err == None
    ensures AllKnown(c.spec.nodes) ==>
      LastWorkloadError(cl.faults, Ordered(c.spec.nodes), |Ordered(c.spec.nodes)|, c, err, old(cl.objects).Keys)
    ensures (forall x | x in c.spec.nodes && IsWorkloadType(x.1.nodeType) :: WorkloadClean(cl.faults, x.1, c)) ==>
      err == None
    ensures NoFaults(cl.faults) && AllKnown(c.spec.nodes) ==>
      forall x | x in c.spec.nodes :: NodeKeys(x.1, c, cmNode, cmCommon) <= cl.objects.Keys
  {
    var ordered := GetAllNodeSpecsInDruidPrescribedOrder(c);
    var allNodeSpecs := if ordered.Success? then ordered.value else [];
    err := ReconcileNodeSpecs(cl, allNodeSpecs, c, cmNode, cmCommon);
    if AllKnown(c.spec.nodes) {
      CleanWorkloadsNoError(cl.faults, c.spec.nodes, c, err, old(cl.objects).Keys);
    }
    if AllKnown(c.spec.nodes) && NoFaults(cl.faults) {
      EveryNodePlanned(c.spec.nodes, c, cmNode, cmCommon, cl.objects.Keys);
    }
  }


  /**
   * `reconileDruid` (sic): runs its one reconcile function,
   * `reconcileDruidNodes`, and returns its error.
   */
  method ReconileDruid(cl: Client, c: Druid, cmNode: (NodeSpec, Druid) -> ConfigMap,
                       cmCommon: (NodeSpec, Druid) -> ConfigMap)
    returns (err: Option<Error>)
    requires cl.Valid()
    modifies cl
    ensures cl.Valid()
    ensures !AllKnown(c.spec.nodes) ==>
      err == None && cl.calls == old(cl.calls) && cl.objects == old(cl.objects) && cl.gets == old(cl.gets)
    ensures AllKnown(c.spec.nodes) ==>
      cl.gets == old(cl.gets) + PlannedGets(Ordered(c.spec.nodes), |Ordered(c.spec.nodes)|, c, cmNode, cmCommon)
    ensures old(cl.objects).Keys <= cl.objects.Keys
    ensures DruidsOf(old(cl.objects)) == DruidsOf(cl.objects)
    ensures NoFaults(cl.faults) ==> err == None
    ensures AllKnown(c.spec.nodes) ==>
      LastWorkloadError(cl.faults, Ordered(c.spec.nodes), |Ordered(c.spec.nodes)|, c, err, old(cl.objects).Keys)
    ensures (forall x | x in c.spec.nodes && IsWorkloadType(x.1.nodeType) :: WorkloadClean(cl.faults, x.1, c)) ==>
      err == None
  {
    err := ReconcileDruidNodes(cl, c, cmNode, cmCommon);
  }
}
