/**
 * pkg/sync/sync.go. Its StatefulSet, Deployment, Service and ConfigMap syncs
 * are the same code as those of pkg/controller/sync/sync.go and are the
 * members of module ControllerSync; only the Ingress sync is its own. Like
 * the others it writes into a copy that it then drops.
 */
module PkgSync {
  import opened Types
  import opened Synced

  method SyncIngress(curr: Ref<Ingress>, next: Ref<Ingress>) returns (currIng: Ingress)
    ensures currIng == SyncedIngress(curr.value, next.value)
  {
    currIng := curr.value;
    currIng := currIng.(meta := currIng.meta.(annotations := next.value.meta.annotations));
    currIng := currIng.(spec := next.value.spec);
  }
}
