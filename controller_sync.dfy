/**
 * The sync helpers of pkg/controller/sync/sync.go. Each one copies the
 * observed object, writes the desired fields into the copy and then drops
 * the copy: the caller's objects are never changed. The methods below
 * return that copy so that what it holds can be stated; they modify nothing
 * (no `modifies` clause), which is the whole effect the caller sees.
 */
module ControllerSync {
  import opened Types
  import opened Synced

  method SyncStatefulSet(curr: Ref<StatefulSet>, next: Ref<StatefulSet>) returns (currSts: StatefulSet)
    ensures currSts == SyncedStatefulSet(curr.value, next.value)
  {
    currSts := curr.value;
    currSts := currSts.(spec := currSts.spec.(replicas := next.value.spec.replicas));
    currSts := currSts.(spec := currSts.spec.(template := next.value.spec.template));
    currSts := currSts.(spec := currSts.spec.(updateStrategy := next.value.spec.updateStrategy));
  }

  method SyncDeployment(curr: Ref<Deployment>, next: Ref<Deployment>) returns (currDeployment: Deployment)
    ensures currDeployment == SyncedDeployment(curr.value, next.value)
  {
    currDeployment := curr.value;
    currDeployment := currDeployment.(spec := currDeployment.spec.(replicas := next.value.spec.replicas));
    currDeployment := currDeployment.(spec := currDeployment.spec.(template := next.value.spec.template));
  }

  method SyncService(curr: Ref<Service>, next: Ref<Service>) returns (currSvc: Service)
    ensures currSvc == SyncedService(curr.value, next.value)
  {
    currSvc := curr.value;
    currSvc := currSvc.(spec := currSvc.spec.(ports := next.value.spec.ports));
    currSvc := currSvc.(spec := currSvc.spec.(serviceType := next.value.spec.serviceType));
  }

  method SyncCm(curr: Ref<ConfigMap>, next: Ref<ConfigMap>) returns (currCm: ConfigMap)
    ensures currCm == SyncedConfigMap(curr.value, next.value)
  {
    currCm := curr.value;
    currCm := currCm.(data := next.value.data);
    currCm := currCm.(binaryData := next.value.binaryData);
  }

  method SyncPdb(curr: Ref<PodDisruptionBudget>, next: Ref<PodDisruptionBudget>) returns (currPdb: PodDisruptionBudget)
    ensures currPdb == SyncedPdb(curr.value, next.value)
  {
    currPdb := curr.value;
    currPdb := currPdb.(spec := currPdb.spec.(maxUnavailable := next.value.spec.maxUnavailable));
  }
}
