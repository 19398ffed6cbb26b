/**
 * The Kubernetes client the reconciler talks to, as an in-memory object
 * store keyed by (kind, namespace, name) with a log of every call. Which
 * calls fail is fixed up front, per key (`Faults`), so that every outcome
 * the reconciler handles can be reached; the API server's own behaviour
 * (resource versions, conflicts, garbage collection) is not modelled.
 */
module Clients {
  import opened Wrappers
  import opened Types

  datatype Kind = DruidKind | StatefulSetKind | DeploymentKind | ConfigMapKind | ServiceKind

  /** A namespaced name together with the kind of object it names. */
  datatype Key = Key(kind: Kind, namespace: string, name: string)

  /** The objects the reconciler reads and writes. */
  datatype Object =
    | DruidObject(druid: Druid)
    | StatefulSetObject(sts: StatefulSet)
    | DeploymentObject(deployment: Deployment)
    | ConfigMapObject(cm: ConfigMap)
    | ServiceObject(svc: Service)

  function MetaOf(o: Object): ObjectMeta {
    match o
    case DruidObject(x) => x.meta
    case StatefulSetObject(x) => x.meta
    case DeploymentObject(x) => x.meta
    case ConfigMapObject(x) => x.meta
    case ServiceObject(x) => x.meta
  }

  function KindOf(o: Object): Kind {
    match o
    case DruidObject(_) => DruidKind
    case StatefulSetObject(_) => StatefulSetKind
    case DeploymentObject(_) => DeploymentKind
    case ConfigMapObject(_) => ConfigMapKind
    case ServiceObject(_) => ServiceKind
  }

  /** The key an object is stored under. */
  function KeyOf(o: Object): Key {
    Key(KindOf(o), MetaOf(o).namespace, MetaOf(o).name)
  }

  /** The object with other metadata, everything else kept. */
  function WithMeta(o: Object, m: ObjectMeta): (r: Object)
    ensures KindOf(r) == KindOf(o) && MetaOf(r) == m
  {
    match o
    case DruidObject(x) => DruidObject(x.(meta := m))
    case StatefulSetObject(x) => StatefulSetObject(x.(meta := m))
    case DeploymentObject(x) => DeploymentObject(x.(meta := m))
    case ConfigMapObject(x) => ConfigMapObject(x.(meta := m))
    case ServiceObject(x) => ServiceObject(x.(meta := m))
  }

  datatype Error =
    | NotFound
    | AlreadyExists
    | Refused          // a failure injected through Faults
    | OwnerRefused     // SetControllerReference failed
    | InvalidNodeType(message: string)
    | Panic(message: string)

  /** One client call, in the order it was issued. */
  datatype Call = GetCall(key: Key) | CreateCall(obj: Object) | UpdateCall(obj: Object)

  /** The keys for which each call fails. */
  datatype Faults = Faults(get: set<Key>, create: set<Key>, update: set<Key>, ownerRef: set<Key>)

  predicate NoFaults(f: Faults) {
    f.get == {} && f.create == {} && f.update == {} && f.ownerRef == {}
  }

  /** The owner reference SetControllerReference records for a Druid owner. */
  function ControllerReference(owner: Druid): OwnerReference {
    OwnerReference(owner.typeMeta.apiVersion, owner.typeMeta.kind, owner.meta.name, true, true)
  }

  /** The object with the owner's controller reference appended. */
  function Owned(o: Object, owner: Druid): (r: Object)
    ensures KeyOf(r) == KeyOf(o)
    ensures MetaOf(r).ownerReferences == MetaOf(o).ownerReferences + [ControllerReference(owner)]
  {
    WithMeta(o, MetaOf(o).(ownerReferences := MetaOf(o).ownerReferences + [ControllerReference(owner)]))
  }

  /** Between two stores at most the object under `key` was added or replaced. */
  ghost predicate OnlyKeyChanged(before: map<Key, Object>, after: map<Key, Object>, key: Key) {
    before.Keys <= after.Keys &&
    (after == before || (key in after && after == before[key := after[key]]))
  }

  /** The Druid objects of a store. */
  function DruidsOf(m: map<Key, Object>): map<Key, Object> {
    map k | k in m && k.kind == DruidKind :: m[k]
  }

  /** Writing an object that is not a Druid leaves the Druid objects as they were. */
  lemma OnlyKeyChangedKeepsDruids(a: map<Key, Object>, b: map<Key, Object>, key: Key)
    requires OnlyKeyChanged(a, b, key) && key.kind != DruidKind
    ensures DruidsOf(a) == DruidsOf(b)
  {
  }

  lemma DruidsOfAt(a: map<Key, Object>, b: map<Key, Object>, key: Key)
    requires DruidsOf(a) == DruidsOf(b) && key.kind == DruidKind
    ensures key in a <==> key in b
    ensures key in a ==> a[key] == b[key]
  {
    assert key in a <==> key in DruidsOf(a);
    assert key in b <==> key in DruidsOf(b);
    if key in a {
      assert DruidsOf(a)[key] == a[key];
      assert DruidsOf(b)[key] == b[key];
    }
  }

  class Client {
    var objects: map<Key, Object>
    var calls: seq<Call>
    /** The keys of the Get calls of `calls`, in order. */
    var gets: seq<Key>
    const faults: Faults

    /** Every object is stored under its own key. */
    ghost predicate Valid()
      reads this
    {
      forall k | k in objects :: KeyOf(objects[k]) == k
    }

    constructor (objects0: map<Key, Object>, faults0: Faults)
      requires forall k | k in objects0 :: KeyOf(objects0[k]) == k
      ensures Valid()
      ensures objects == objects0 && calls == [] && gets == [] && faults == faults0
    {
      objects := objects0;
      calls := [];
      gets := [];
      faults := faults0;
    }

    /** Get: the stored object, NotFound when there is none. */
    method Get(key: Key) returns (r: Result<Object, Error>)
      requires Valid()
      modifies this
      ensures Valid() && objects == old(objects)
      ensures calls == old(calls) + [GetCall(key)]
      ensures gets == old(gets) + [key]
      ensures key in faults.get ==> r == Failure(Refused)
      ensures key !in faults.get && key in objects ==> r == Success(objects[key])
      ensures key !in faults.get && key !in objects ==> r == Failure(NotFound)
      ensures r.Success? ==> KeyOf(r.value) == key
    {
      calls := calls + [GetCall(key)];
      gets := gets + [key];
      if key in faults.get {
        r := Failure(Refused);
      } else if key in objects {
        r := Success(objects[key]);
      } else {
        r := Failure(NotFound);
      }
    }

    /** Create: stores a new object, AlreadyExists when its key is taken. */
    method Create(obj: Object) returns (err: Option<Error>)
      requires Valid()
      modifies this
      ensures Valid()
      ensures calls == old(calls) + [CreateCall(obj)]
      ensures gets == old(gets)
      ensures KeyOf(obj) in faults.create ==> err == Some(Refused) && objects == old(objects)
      ensures KeyOf(obj) !in faults.create && KeyOf(obj) in old(objects) ==>
        err == Some(AlreadyExists) && objects == old(objects)
      ensures KeyOf(obj) !in faults.create && KeyOf(obj) !in old(objects) ==>
        err == None && objects == old(objects)[KeyOf(obj) := obj]
    {
      calls := calls + [CreateCall(obj)];
      var key := KeyOf(obj);
      if key in faults.create {
        err := Some(Refused);
      } else if key in objects {
        err := Some(AlreadyExists);
      } else {
        objects := objects[key := obj];
        err := None;
      }
    }

    /** Update: replaces a stored object, NotFound when there is none. */
    method Update(obj: Object) returns (err: Option<Error>)
      requires Valid()
      modifies this
      ensures Valid()
      ensures calls == old(calls) + [UpdateCall(obj)]
      ensures gets == old(gets)
      ensures KeyOf(obj) in faults.update ==> err == Some(Refused) && objects == old(objects)
      ensures KeyOf(obj) !in faults.update && KeyOf(obj) !in old(objects) ==>
        err == Some(NotFound) && objects == old(objects)
      ensures KeyOf(obj) !in faults.update && KeyOf(obj) in old(objects) ==>
        err == None && objects == old(objects)[KeyOf(obj) := obj]
    {
      calls := calls + [UpdateCall(obj)];
      var key := KeyOf(obj);
      if key in faults.update {
        err := Some(Refused);
      } else if key !in objects {
        err := Some(NotFound);
      } else {
        objects := objects[key := obj];
        err := None;
      }
    }

    /**
     * controllerutil.SetControllerReference on an object the builders just
     * made (one without owner references): appends the owner's controller
     * reference, or fails.
     */
    function SetControllerReference(owner: Druid, obj: Object): (r: Result<Object, Error>)
      ensures KeyOf(obj) in faults.ownerRef ==> r == Failure(OwnerRefused)
      ensures KeyOf(obj) !in faults.ownerRef ==> r == Success(Owned(obj, owner))
    {
      if KeyOf(obj) in faults.ownerRef then Failure(OwnerRefused) else Success(Owned(obj, owner))
    }
  }
}
