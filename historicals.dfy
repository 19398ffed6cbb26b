/**
 * The in-place StatefulSet sync of pkg/controller/druid/historicals.go: unlike
 * the helpers in module ControllerSync it writes through the pointer.
 */
module Historicals {
  import opened Types
  import opened Synced

  /**
   * Copies Replicas, Template and UpdateStrategy from next into curr and
   * leaves every other field of curr, and next itself, as they were (also
   * when curr and next are the same object).
   */
  method SyncStatefulSet(curr: Ref<StatefulSet>, next: Ref<StatefulSet>)
    modifies curr
    ensures curr.value == SyncedStatefulSet(old(curr.value), old(next.value))
    ensures next.value == old(next.value)
  {
    curr.value := curr.value.(spec := curr.value.spec.(replicas := next.value.spec.replicas));
    curr.value := curr.value.(spec := curr.value.spec.(template := next.value.spec.template));
    curr.value := curr.value.(spec := curr.value.spec.(updateStrategy := next.value.spec.updateStrategy));
  }

  /** Running the in-place sync twice with the same next leaves what running it once does. */
  method SyncTwice(curr: Ref<StatefulSet>, next: Ref<StatefulSet>)
    modifies curr
    ensures curr.value == SyncedStatefulSet(old(curr.value), old(next.value))
  {
    SyncStatefulSet(curr, next);
    SyncStatefulSet(curr, next);
    SyncedStatefulSetIdempotent(old(curr.value), old(curr.value), old(next.value));
  }
}
