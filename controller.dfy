/**
 * The entry point of the Druid controller (pkg/controller/druid/druid_controller.go):
 * read the Druid object, validate it, reconcile its nodes, and then either
 * handle its deletion or make sure it carries the operator's finalizer.
 */
module Controller {
  import opened Wrappers
  import opened Types
  import opened Clients
  import opened NodeOrder
  import opened Validation
  import opened Reconcile

  /** `ReconcileTime`: 30 seconds, as a Go duration in nanoseconds. */
  const ReconcileTime: int := 30 * 1_000_000_000

  /** `druidFinalizer`. */
  const DruidFinalizer: string := "finalizer." + "druid." + "binaryomen.org"

  /** `reconcile.Result`. */
  datatype ReconcileResult = ReconcileResult(requeue: bool, requeueAfter: int)

  /** `reconcile.Result{}`: no requeue. */
  const NoRequeue := ReconcileResult(false, 0)

  /** `reconcile.Result{RequeueAfter: ReconcileTime}`. */
  const RequeueLater := ReconcileResult(false, ReconcileTime)

  /** `s` occurs at most once in `list`. */
  ghost predicate AtMostOnce(list: seq<string>, s: string) {
    forall j, k | 0 <= j < |list| && 0 <= k < |list| && list[j] == s && list[k] == s :: j == k
  }

  /** `list` without any occurrence of `s`, the others in order. */
  function Without(list: seq<string>, s: string): seq<string> {
    if list == [] then []
    else Without(list[..|list| - 1], s) + (if list[|list| - 1] == s then [] else [list[|list| - 1]])
  }

  lemma {:induction false} WithoutAppend(a: seq<string>, b: seq<string>, s: string)
    ensures Without(a + b, s) == Without(a, s) + Without(b, s)
    decreases |b|
  {
    if b == [] {
      assert a + b == a;
    } else {
      assert (a + b)[..|a + b| - 1] == a + b[..|b| - 1];
      WithoutAppend(a, b[..|b| - 1], s);
    }
  }

  lemma {:induction false} WithoutAbsent(list: seq<string>, s: string)
    requires s !in list
    ensures Without(list, s) == list
  {
    if list != [] {
      assert list[..|list| - 1] + [list[|list| - 1]] == list;
      WithoutAbsent(list[..|list| - 1], s);
    }
  }

  /** With its only occurrence at `at`, removing `s` is cutting out that one element. */
  lemma WithoutOnce(list: seq<string>, s: string, at: nat)
    requires at < |list| && list[at] == s && AtMostOnce(list, s)
    ensures Without(list, s) == list[..at] + list[at + 1..]
  {
    assert list == list[..at] + [s] + list[at + 1..];
    forall j | 0 <= j < at ensures list[..at][j] != s {
      assert list[..at][j] == list[j];
    }
    var tail := list[at + 1..];
    forall j | 0 <= j < |tail| ensures tail[j] != s {
      assert tail[j] == list[at + 1 + j];
    }
    WithoutAppend(list[..at] + [s], list[at + 1..], s);
    WithoutAppend(list[..at], [s], s);
    WithoutAbsent(list[..at], s);
    WithoutAbsent(list[at + 1..], s);
    assert Without([s], s) == [] by {
      assert [s][..0] == [];
    }
  }

  /** Nothing but `s` is removed, and no `s` is left. */
  lemma {:induction false} WithoutRemovesOnly(list: seq<string>, s: string)
    ensures s !in Without(list, s)
    ensures forall x | x != s :: multiset(Without(list, s))[x] == multiset(list)[x]
  {
    if list != [] {
      var init, last := list[..|list| - 1], list[|list| - 1];
      WithoutRemovesOnly(init, s);
      assert list == init + [last];
      assert multiset(list) == multiset(init) + multiset{last};
      var kept := if last == s then [] else [last];
      assert Without(list, s) == Without(init, s) + kept;
      assert multiset(Without(list, s)) == multiset(Without(init, s)) + multiset(kept);
    }
  }

  /** `contains`: a linear search. */
  method Contains(list: seq<string>, s: string) returns (b: bool)
    ensures b <==> s in list
  {
    var i := 0;
    while i < |list|
      invariant 0 <= i <= |list|
      invariant s !in list[..i]
    {
      if list[i] == s {
        return true;
      }
      assert list[..i + 1] == list[..i] + [list[i]];
      i := i + 1;
    }
    assert list[..i] == list;
    return false;
  }

  /**
   * `remove`, on the slice's backing array `arr` and its current length
   * `len`: the range loop reads the original array at every index, and each
   * match shifts the rest of the current list one place left in that same
   * array. A match past the current length makes `list[i+1:]` go out of
   * range, which panics in Go and gives None here.
   */
  method Remove(list: seq<string>, s: string) returns (r: Option<seq<string>>)
    ensures AtMostOnce(list, s) ==> r == Some(Without(list, s))
    ensures r.Some? ==> |r.value| <= |list|
  {
    var arr := list;
    var len := |list|;
    ghost var at := -1;
    var i := 0;
    while i < |list|
      invariant 0 <= i <= |list| && |arr| == |list| && 0 <= len <= |arr|
      invariant AtMostOnce(list, s) ==>
        (at == -1 && arr == list && len == |list| && s !in list[..i]) ||
        (0 <= at < i && list[at] == s && len == |list| - 1 &&
         arr == list[..at] + list[at + 1..] + [list[|list| - 1]])
    {
      var v := arr[i];
      if v == s {
        if i + 1 > len {
          return None;
        }
        arr := arr[..i] + arr[i + 1..len] + arr[len - 1..];
        len := len - 1;
        at := i;
      } else if AtMostOnce(list, s) && at == -1 {
        assert list[..i + 1] == list[..i] + [list[i]];
      }
      i := i + 1;
    }
    if AtMostOnce(list, s) {
      if at == -1 {
        assert list[..i] == list;
        WithoutAbsent(list, s);
      } else {
        WithoutOnce(list, s, at);
      }
    }
    return Some(arr[..len]);
  }

  /** The Druid object with other finalizers. */
  function WithFinalizers(d: Druid, finalizers: seq<string>): (r: Druid)
    ensures r.meta.finalizers == finalizers
    ensures KeyOf(DruidObject(r)) == KeyOf(DruidObject(d))
    ensures r.spec == d.spec && r.meta.deletionTimestamp == d.meta.deletionTimestamp
  {
    d.(meta := d.meta.(finalizers := finalizers))
  }

  /** `finalizeDruid`: no clean-up steps; it never fails. */
  method FinalizeDruid(c: Druid) returns (err: Option<Error>)
    ensures err == None
  {
    err := None;
  }

  /** `addFinalizer`: appends the finalizer to the object and writes it back with one Update. */
  method AddFinalizer(cl: Client, c: Ref<Druid>) returns (err: Option<Error>)
    requires cl.Valid()
    modifies cl, c
    ensures cl.Valid() && cl.gets == old(cl.gets)
    ensures c.value == WithFinalizers(old(c.value), old(c.value).meta.finalizers + [DruidFinalizer])
    ensures DruidFinalizer in c.value.meta.finalizers
    ensures cl.calls == old(cl.calls) + [UpdateCall(DruidObject(c.value))]
    ensures var key := KeyOf(DruidObject(c.value));
      (key in cl.faults.update ==> err == Some(Refused) && cl.objects == old(cl.objects)) &&
      (key !in cl.faults.update && key !in old(cl.objects) ==> err == Some(NotFound) && cl.objects == old(cl.objects)) &&
      (key !in cl.faults.update && key in old(cl.objects) ==>
        err == None && cl.objects == old(cl.objects)[key := DruidObject(c.value)])
  {
    c.value := WithFinalizers(c.value, c.value.meta.finalizers + [DruidFinalizer]);
    err := cl.Update(DruidObject(c.value));
  }

  /**
   * The deletion branch of `Reconcile`: when the object still holds the
   * finalizer, finalize, remove the finalizer and write the object back.
   */
  method HandleDeletion(cl: Client, c: Ref<Druid>) returns (err: Option<Error>)
    requires cl.Valid()
    modifies cl, c
    ensures cl.Valid() && cl.gets == old(cl.gets)
    ensures DruidFinalizer !in old(c.value).meta.finalizers ==>
      err == None && c.value == old(c.value) && cl.calls == old(cl.calls) && cl.objects == old(cl.objects)
    ensures DruidFinalizer in old(c.value).meta.finalizers && AtMostOnce(old(c.value).meta.finalizers, DruidFinalizer) ==>
      var d := WithFinalizers(old(c.value), Without(old(c.value).meta.finalizers, DruidFinalizer));
      var key := KeyOf(DruidObject(d));
      c.value == d && DruidFinalizer !in d.meta.finalizers &&
      cl.calls == old(cl.calls) + [UpdateCall(DruidObject(d))] &&
      (key in cl.faults.update ==> err == Some(Refused) && cl.objects == old(cl.objects)) &&
      (key !in cl.faults.update && key !in old(cl.objects) ==> err == Some(NotFound) && cl.objects == old(cl.objects)) &&
      (key !in cl.faults.update && key in old(cl.objects) ==> err == None && cl.objects == old(cl.objects)[key := DruidObject(d)])
  {
    err := None;
    var holds := Contains(c.value.meta.finalizers, DruidFinalizer);
    if holds {
      err := FinalizeDruid(c.value);
      if err.Some? {
        return;
      }
      WithoutRemovesOnly(c.value.meta.finalizers, DruidFinalizer);
      var removed := Remove(c.value.meta.finalizers, DruidFinalizer);
      if removed.None? {
        return Some(Panic("slice bounds out of range"));
      }
      c.value := WithFinalizers(c.value, removed.value);
      err := cl.Update(DruidObject(c.value));
    }
  }

  /**
   * The part of `Reconcile` after the nodes are reconciled: a deleted object
   * is finalized and gets no requeue; otherwise the finalizer is added when
   * it is missing and the object is requeued after `ReconcileTime`.
   */
  method ReconcileFinalizer(cl: Client, c: Ref<Druid>) returns (res: ReconcileResult, err: Option<Error>)
    requires cl.Valid()
    modifies cl, c
    ensures cl.Valid() && cl.gets == old(cl.gets)
    ensures res == RequeueLater <==> old(c.value).meta.deletionTimestamp.None? && err == None
    ensures res != RequeueLater ==> res == NoRequeue
    ensures var key := KeyOf(DruidObject(old(c.value)));
      NoFaults(cl.faults) && key in old(cl.objects) &&
      (old(c.value).meta.deletionTimestamp.Some? ==> AtMostOnce(old(c.value).meta.finalizers, DruidFinalizer)) ==>
        err == None
    ensures old(c.value).meta.deletionTimestamp.None? ==>
      var d := old(c.value);
      var key := KeyOf(DruidObject(d));
      (DruidFinalizer in d.meta.finalizers ==> err == None && cl.calls == old(cl.calls) && cl.objects == old(cl.objects)) &&
      (DruidFinalizer !in d.meta.finalizers ==>
        var added := WithFinalizers(d, d.meta.finalizers + [DruidFinalizer]);
        cl.calls == old(cl.calls) + [UpdateCall(DruidObject(added))] &&
        (err == None ==> cl.objects == old(cl.objects)[key := DruidObject(added)]))
    ensures old(c.value).meta.deletionTimestamp.Some? ==>
      var d := old(c.value);
      var key := KeyOf(DruidObject(d));
      (DruidFinalizer !in d.meta.finalizers ==> err == None && cl.calls == old(cl.calls) && cl.objects == old(cl.objects)) &&
      (DruidFinalizer in d.meta.finalizers && AtMostOnce(d.meta.finalizers, DruidFinalizer) ==>
        var removed := WithFinalizers(d, Without(d.meta.finalizers, DruidFinalizer));
        cl.calls == old(cl.calls) + [UpdateCall(DruidObject(removed))] &&
        (err == None ==> cl.objects == old(cl.objects)[key := DruidObject(removed)]))
    ensures var key := KeyOf(DruidObject(old(c.value)));
      key in old(cl.objects) && old(cl.objects)[key] == DruidObject(old(c.value)) && res == RequeueLater ==>
        key in cl.objects && cl.objects[key].DruidObject? && DruidFinalizer in cl.objects[key].druid.meta.finalizers
  {
    if c.value.meta.deletionTimestamp.Some? {
      err := HandleDeletion(cl, c);
      return NoRequeue, err;
    }
    var holds := Contains(c.value.meta.finalizers, DruidFinalizer);
    if !holds {
      err := AddFinalizer(cl, c);
      if err.Some? {
        return NoRequeue, err;
      }
    }
    return RequeueLater, None;
  }

  /**
   * `Reconcile` for the Druid object `namespace`/`name`. `cmNode` and
   * `cmCommon` stand for the ConfigMap builders the node loop calls.
   */
  method ReconcileRequest(cl: Client, namespace: string, name: string, cmNode: (NodeSpec, Druid) -> ConfigMap,
                          cmCommon: (NodeSpec, Druid) -> ConfigMap)
    returns (res: ReconcileResult, err: Option<Error>)
    requires cl.Valid()
    modifies cl
    ensures cl.Valid()
    ensures res != RequeueLater ==> res == NoRequeue
    ensures var key := Key(DruidKind, namespace, name);
      key in cl.faults.get ==>
        res == NoRequeue && err == Some(Refused) && cl.calls == old(cl.calls) + [GetCall(key)] && cl.objects == old(cl.objects)
    ensures var key := Key(DruidKind, namespace, name);
      key !in cl.faults.get && key !in old(cl.objects) ==>
        res == NoRequeue && err == None && cl.calls == old(cl.calls) + [GetCall(key)] && cl.objects == old(cl.objects)
    ensures var key := Key(DruidKind, namespace, name);
      key !in cl.faults.get && key in old(cl.objects) ==>
        old(cl.objects)[key].DruidObject? &&
        var d := old(cl.objects)[key].druid;
        (!DruidOk(d) ==>
          res == NoRequeue && err == None && cl.calls == old(cl.calls) + [GetCall(key)] && cl.objects == old(cl.objects)) &&
        (DruidOk(d) && AllKnown(d.spec.nodes) ==>
          cl.gets == old(cl.gets) + [key] + PlannedGets(Ordered(d.spec.nodes), |Ordered(d.spec.nodes)|, d, cmNode, cmCommon)) &&
        (DruidOk(d) && !AllKnown(d.spec.nodes) ==> cl.gets == old(cl.gets) + [key]) &&
        (DruidOk(d) && AllKnown(d.spec.nodes) ==>
         var all := Ordered(d.spec.nodes);
         (LastWorkload(all, |all|).Some? && WorkloadKey(all[LastWorkload(all, |all|).value].1, d) in cl.faults.get ==>
           res == NoRequeue && err == Some(Refused))) &&
        (res == RequeueLater <==> DruidOk(d) && d.meta.deletionTimestamp.None? && err == None) &&
        ((DruidOk(d) && NoFaults(cl.faults) &&
          (d.meta.deletionTimestamp.Some? ==> AtMostOnce(d.meta.finalizers, DruidFinalizer))) ==> err == None) &&
        (res == RequeueLater ==>
          key in cl.objects && cl.objects[key].DruidObject? && DruidFinalizer in cl.objects[key].druid.meta.finalizers) &&
        (DruidOk(d) && d.meta.deletionTimestamp.Some? && DruidFinalizer in d.meta.finalizers &&
         AtMostOnce(d.meta.finalizers, DruidFinalizer) && err == None ==>
          key in cl.objects && cl.objects[key] == DruidObject(WithFinalizers(d, Without(d.meta.finalizers, DruidFinalizer))))
  {
    var key := Key(DruidKind, namespace, name);
    var got := cl.Get(key);
    if got.Failure? {
      if got.error == NotFound {
        return NoRequeue, None;
      }
      return NoRequeue, Some(got.error);
    }
    ghost var before := cl.objects;
    assert got.value == before[key] && got.value.DruidObject?;
    assert got.value == DruidObject(got.value.druid);
    var c := new Ref(got.value.druid);
    var validator := new Validator();
    validator.Validate(c.value);
    if !validator.validated {
      return NoRequeue, None;
    }
    err := ReconileDruid(cl, c.value, cmNode, cmCommon);
    if AllKnown(c.value.spec.nodes) {
      var all := Ordered(c.value.spec.nodes);
      LastWorkloadErrorCases(cl.faults, all, |all|, c.value, err, before.Keys);
    }
    if err.Some? {
      return NoRequeue, err;
    }
    DruidsOfAt(before, cl.objects, key);
    res, err := ReconcileFinalizer(cl, c);
  }
}
