/**
 * getAllNodeSpecsInDruidPrescribedOrder of pkg/controller/druid/reconcile.go:
 * node specs bucketed by node type and the buckets concatenated in a fixed
 * rank order.
 */
module NodeOrder {
  import opened Wrappers
  import opened Types
  import opened Clients

  const Historical := "historical"
  const Overlord := "overlord"
  const MiddleManager := "middleManager"
  const Indexer := "indexer"
  const Broker := "broker"
  const Coordinator := "coordinator"
  const Router := "router"

  /** The node types in the order their buckets are concatenated. */
  const NodeTypes: seq<string> := [Historical, Overlord, MiddleManager, Indexer, Broker, Coordinator, Router]

  predicate IsNodeType(t: string) {
    t in NodeTypes
  }

  ghost predicate Distinct(types: seq<string>) {
    forall i, j | 0 <= i < j < |types| :: types[i] != types[j]
  }

  lemma NodeTypesDistinct()
    ensures Distinct(NodeTypes)
  {
  }

  /** The position of t in types; |types| when it is absent. */
  function IndexOf(types: seq<string>, t: string): (r: nat)
    ensures r <= |types|
    ensures r < |types| <==> t in types
    ensures r < |types| ==> types[r] == t
  {
    if types == [] then 0
    else if types[0] == t then 0
    else 1 + IndexOf(types[1..], t)
  }

  /** The position of a node type's bucket in the prescribed order; 7 for an unknown type. */
  function Rank(t: string): nat {
    IndexOf(NodeTypes, t)
  }

  /** Every node spec has a known node type. */
  ghost predicate AllKnown(nodes: seq<KeyAndNodeSpec>) {
    forall i | 0 <= i < |nodes| :: IsNodeType(nodes[i].1.nodeType)
  }

  /** The node specs of one type, in input order. */
  function Bucket(nodes: seq<KeyAndNodeSpec>, t: string): seq<KeyAndNodeSpec> {
    if nodes == [] then []
    else Bucket(nodes[..|nodes| - 1], t) + (if nodes[|nodes| - 1].1.nodeType == t then [nodes[|nodes| - 1]] else [])
  }

  /** The buckets of the given types, concatenated in that order. */
  function OrderedBy(nodes: seq<KeyAndNodeSpec>, types: seq<string>): seq<KeyAndNodeSpec> {
    if types == [] then [] else Bucket(nodes, types[0]) + OrderedBy(nodes, types[1..])
  }

  /** The prescribed order: all buckets, historical first and router last. */
  function Ordered(nodes: seq<KeyAndNodeSpec>): seq<KeyAndNodeSpec> {
    OrderedBy(nodes, NodeTypes)
  }

  /** The type of the first node spec whose type is unknown. */
  function FirstUnknown(nodes: seq<KeyAndNodeSpec>): (t: string)
    requires !AllKnown(nodes)
    ensures !IsNodeType(t)
  {
    if !IsNodeType(nodes[0].1.nodeType) then nodes[0].1.nodeType
    else FirstUnknown(nodes[1..])
  }

  /** The error message for an unknown node type: it names the Druid's kind and name, and the rejected type. */
  function InvalidNodeTypeMessage(c: Druid, t: string): (r: string)
    ensures var k := |c.typeMeta.kind|; var n := |c.meta.name|;
      |r| == 55 + k + n + |t| && r[..10] == "druidSpec[" &&
      r[10..10 + k] == c.typeMeta.kind && r[10 + k] == ':' && r[11 + k..11 + k + n] == c.meta.name
    ensures r[|r| - 21 - |t|..|r| - 21] == t && r[|r| - 21..] == "]. Deployment aborted"
  {
    "druidSpec[" + c.typeMeta.kind + ":" + c.meta.name + "] has invalid NodeType[" + t + "]. Deployment aborted"
  }

  // ----- lemmas about buckets -----

  lemma {:induction false} BucketAppend(a: seq<KeyAndNodeSpec>, b: seq<KeyAndNodeSpec>, t: string)
    ensures Bucket(a + b, t) == Bucket(a, t) + Bucket(b, t)
    decreases |b|
  {
    if b == [] {
      assert a + b == a;
    } else {
      assert (a + b)[..|a + b| - 1] == a + b[..|b| - 1];
      BucketAppend(a, b[..|b| - 1], t);
    }
  }

  lemma BucketSnoc(nodes: seq<KeyAndNodeSpec>, x: KeyAndNodeSpec, t: string)
    ensures Bucket(nodes + [x], t) == Bucket(nodes, t) + (if x.1.nodeType == t then [x] else [])
  {
    assert (nodes + [x])[..|nodes + [x]| - 1] == nodes;
  }

  lemma {:induction false} BucketOfType(nodes: seq<KeyAndNodeSpec>, t: string)
    ensures forall x | x in Bucket(nodes, t) :: x.1.nodeType == t
  {
    if nodes != [] {
      BucketOfType(nodes[..|nodes| - 1], t);
    }
  }

  /** Bucketing a bucket again keeps it when the types agree and empties it otherwise. */
  lemma {:induction false} BucketOfBucket(nodes: seq<KeyAndNodeSpec>, u: string, t: string)
    ensures Bucket(Bucket(nodes, u), t) == if u == t then Bucket(nodes, u) else []
  {
    if nodes != [] {
      var init := nodes[..|nodes| - 1];
      var last := nodes[|nodes| - 1];
      BucketOfBucket(init, u, t);
      var tail := if last.1.nodeType == u then [last] else [];
      BucketAppend(Bucket(init, u), tail, t);
      assert Bucket(tail, t) == if last.1.nodeType == u && u == t then [last] else [] by {
        if tail != [] {
          assert tail[..0] == [];
        }
      }
    }
  }

  // ----- the ordering keeps every node spec, in rank order and stably -----

  lemma {:induction false} OrderedByEmpty(types: seq<string>)
    ensures OrderedBy([], types) == []
  {
    if types != [] {
      OrderedByEmpty(types[1..]);
    }
  }

  lemma DistinctTail(types: seq<string>)
    requires types != [] && Distinct(types)
    ensures Distinct(types[1..])
    ensures types[0] !in types[1..]
  {
    var tail := types[1..];
    forall i, j | 0 <= i < j < |tail| ensures tail[i] != tail[j] {
      assert tail[i] == types[i + 1] && tail[j] == types[j + 1];
    }
    forall j | 0 <= j < |tail| ensures tail[j] != types[0] {
      assert tail[j] == types[j + 1];
    }
  }

  /** One more node spec adds it to the ordering exactly when its type is among the types. */
  lemma {:induction false} OrderedBySnoc(nodes: seq<KeyAndNodeSpec>, x: KeyAndNodeSpec, types: seq<string>)
    requires Distinct(types)
    ensures multiset(OrderedBy(nodes + [x], types))
      == multiset(OrderedBy(nodes, types)) + (if x.1.nodeType in types then multiset{x} else multiset{})
  {
    if types != [] {
      var tail := types[1..];
      DistinctTail(types);
      OrderedBySnoc(nodes, x, tail);
      BucketSnoc(nodes, x, types[0]);
      var b := Bucket(nodes, types[0]);
      var rest := OrderedBy(nodes, tail);
      assert OrderedBy(nodes + [x], types) == Bucket(nodes + [x], types[0]) + OrderedBy(nodes + [x], tail);
      assert OrderedBy(nodes, types) == b + rest;
      if x.1.nodeType == types[0] {
        assert x.1.nodeType !in tail;
        assert multiset(Bucket(nodes + [x], types[0])) == multiset(b) + multiset{x};
        assert multiset(OrderedBy(nodes + [x], tail)) == multiset(rest);
      } else {
        assert Bucket(nodes + [x], types[0]) == b;
        assert x.1.nodeType in types <==> x.1.nodeType in tail;
      }
    }
  }

  /** With every type among the distinct types, the ordering is a permutation of the node specs. */
  lemma {:induction false} OrderedByIsPermutation(nodes: seq<KeyAndNodeSpec>, types: seq<string>)
    requires Distinct(types)
    requires forall i | 0 <= i < |nodes| :: nodes[i].1.nodeType in types
    ensures multiset(OrderedBy(nodes, types)) == multiset(nodes)
  {
    if nodes == [] {
      OrderedByEmpty(types);
    } else {
      var init := nodes[..|nodes| - 1];
      var x := nodes[|nodes| - 1];
      assert init + [x] == nodes;
      assert forall i | 0 <= i < |init| :: init[i].1.nodeType in types by {
        forall i | 0 <= i < |init| ensures init[i].1.nodeType in types {
          assert init[i] == nodes[i];
        }
      }
      OrderedByIsPermutation(init, types);
      OrderedBySnoc(init, x, types);
    }
  }

  /** With every type known, the prescribed order holds every node spec exactly once. */
  lemma OrderedIsPermutation(nodes: seq<KeyAndNodeSpec>)
    requires AllKnown(nodes)
    ensures multiset(Ordered(nodes)) == multiset(nodes)
    ensures |Ordered(nodes)| == |nodes|
  {
    NodeTypesDistinct();
    OrderedByIsPermutation(nodes, NodeTypes);
    assert |multiset(Ordered(nodes))| == |Ordered(nodes)|;
  }

  /** Every node spec of the ordering has a type among the types, and the ordering is non-decreasing in position. */
  lemma {:induction false} OrderedBySorted(nodes: seq<KeyAndNodeSpec>, types: seq<string>)
    requires Distinct(types)
    ensures forall x | x in OrderedBy(nodes, types) :: x.1.nodeType in types
    ensures forall i, j | 0 <= i < j < |OrderedBy(nodes, types)| ::
      IndexOf(types, OrderedBy(nodes, types)[i].1.nodeType) <= IndexOf(types, OrderedBy(nodes, types)[j].1.nodeType)
  {
    if types != [] {
      var tail := types[1..];
      assert Distinct(tail) by {
        forall i, j | 0 <= i < j < |tail| ensures tail[i] != tail[j] {
          assert tail[i] == types[i + 1] && tail[j] == types[j + 1];
        }
      }
      OrderedBySorted(nodes, tail);
      var b := Bucket(nodes, types[0]);
      var rest := OrderedBy(nodes, tail);
      BucketOfType(nodes, types[0]);
      assert forall x | x in b :: IndexOf(types, x.1.nodeType) == 0;
      forall y | y in rest
        ensures y.1.nodeType != types[0] && IndexOf(types, y.1.nodeType) == 1 + IndexOf(tail, y.1.nodeType)
      {
        var k := IndexOf(tail, y.1.nodeType);
        assert tail[k] == types[k + 1];
      }
      assert OrderedBy(nodes, types) == b + rest;
      forall i, j | 0 <= i < j < |b + rest|
        ensures IndexOf(types, (b + rest)[i].1.nodeType) <= IndexOf(types, (b + rest)[j].1.nodeType)
      {
        if j < |b| {
          assert b[i] in b && b[j] in b;
        } else if i < |b| {
          assert b[i] in b && rest[j - |b|] in rest;
        } else {
          assert (b + rest)[i] == rest[i - |b|] && (b + rest)[j] == rest[j - |b|];
          assert rest[i - |b|] in rest && rest[j - |b|] in rest;
        }
      }
    }
  }

  /** The prescribed order is non-decreasing in rank. */
  lemma OrderedIsSorted(nodes: seq<KeyAndNodeSpec>)
    ensures forall i, j | 0 <= i < j < |Ordered(nodes)| ::
      Rank(Ordered(nodes)[i].1.nodeType) <= Rank(Ordered(nodes)[j].1.nodeType)
  {
    NodeTypesDistinct();
    OrderedBySorted(nodes, NodeTypes);
  }

  /** Bucketing the ordering gives a type's bucket when the type is among the types. */
  lemma {:induction false} OrderedByStable(nodes: seq<KeyAndNodeSpec>, types: seq<string>, t: string)
    requires Distinct(types)
    ensures Bucket(OrderedBy(nodes, types), t) == if t in types then Bucket(nodes, t) else []
  {
    if types != [] {
      var tail := types[1..];
      assert Distinct(tail) by {
        forall i, j | 0 <= i < j < |tail| ensures tail[i] != tail[j] {
          assert tail[i] == types[i + 1] && tail[j] == types[j + 1];
        }
      }
      OrderedByStable(nodes, tail, t);
      BucketAppend(Bucket(nodes, types[0]), OrderedBy(nodes, tail), t);
      BucketOfBucket(nodes, types[0], t);
      assert t in types <==> t == types[0] || t in tail;
      if t == types[0] {
        assert t !in tail by {
          forall j | 0 <= j < |tail| ensures tail[j] != types[0] {
            assert tail[j] == types[j + 1];
          }
        }
      }
    } else {
      assert Bucket([], t) == [];
    }
  }

  /** Within each node type, the prescribed order keeps the input order. */
  lemma OrderedIsStable(nodes: seq<KeyAndNodeSpec>, t: string)
    requires IsNodeType(t)
    ensures Bucket(Ordered(nodes), t) == Bucket(nodes, t)
  {
    NodeTypesDistinct();
    OrderedByStable(nodes, NodeTypes, t);
  }

  // ----- the method -----

  lemma OrderedUnfold(nodes: seq<KeyAndNodeSpec>)
    ensures Ordered(nodes) ==
      Bucket(nodes, Historical) + Bucket(nodes, Overlord) + Bucket(nodes, MiddleManager) + Bucket(nodes, Indexer)
      + Bucket(nodes, Broker) + Bucket(nodes, Coordinator) + Bucket(nodes, Router)
  {
    assert NodeTypes[7..] == [];
    assert OrderedBy(nodes, NodeTypes[6..]) == Bucket(nodes, Router) + OrderedBy(nodes, NodeTypes[7..]);
    assert OrderedBy(nodes, NodeTypes[5..]) == Bucket(nodes, Coordinator) + OrderedBy(nodes, NodeTypes[6..]);
    assert OrderedBy(nodes, NodeTypes[4..]) == Bucket(nodes, Broker) + OrderedBy(nodes, NodeTypes[5..]);
    assert OrderedBy(nodes, NodeTypes[3..]) == Bucket(nodes, Indexer) + OrderedBy(nodes, NodeTypes[4..]);
    assert OrderedBy(nodes, NodeTypes[2..]) == Bucket(nodes, MiddleManager) + OrderedBy(nodes, NodeTypes[3..]);
    assert OrderedBy(nodes, NodeTypes[1..]) == Bucket(nodes, Overlord) + OrderedBy(nodes, NodeTypes[2..]);
    assert OrderedBy(nodes, NodeTypes) == Bucket(nodes, Historical) + OrderedBy(nodes, NodeTypes[1..]);
  }

  lemma {:induction false} FirstUnknownAt(nodes: seq<KeyAndNodeSpec>, i: nat)
    requires i < |nodes| && AllKnown(nodes[..i]) && !IsNodeType(nodes[i].1.nodeType)
    ensures !AllKnown(nodes) && FirstUnknown(nodes) == nodes[i].1.nodeType
  {
    if i > 0 {
      assert nodes[..i][0] == nodes[0];
      var rest := nodes[1..];
      assert rest[..i - 1] == nodes[..i][1..];
      AllKnownTail(nodes[..i]);
      assert rest[i - 1] == nodes[i];
      FirstUnknownAt(rest, i - 1);
    }
  }

  lemma AllKnownTail(nodes: seq<KeyAndNodeSpec>)
    requires nodes != [] && AllKnown(nodes)
    ensures AllKnown(nodes[1..])
  {
    forall k | 0 <= k < |nodes| - 1 ensures IsNodeType(nodes[1..][k].1.nodeType) {
      assert nodes[1..][k] == nodes[k + 1];
    }
  }

  lemma AllKnownSnoc(nodes: seq<KeyAndNodeSpec>, x: KeyAndNodeSpec)
    requires AllKnown(nodes) && IsNodeType(x.1.nodeType)
    ensures AllKnown(nodes + [x])
  {
    forall k | 0 <= k < |nodes| + 1 ensures IsNodeType((nodes + [x])[k].1.nodeType) {
      if k < |nodes| {
        assert (nodes + [x])[k] == nodes[k];
      }
    }
  }

  /** The initial, empty buckets: one per node type. */
  function EmptyBuckets(): map<string, seq<KeyAndNodeSpec>> {
    map[Historical := [], Overlord := [], MiddleManager := [], Indexer := [],
        Broker := [], Coordinator := [], Router := []]
  }

  lemma EmptyBucketsKeys()
    ensures forall t :: t in EmptyBuckets() <==> IsNodeType(t)
    ensures forall t | t in EmptyBuckets() :: EmptyBuckets()[t] == []
  {
  }

  /** Adding a node spec to its bucket keeps every bucket equal to Bucket of the prefix. */
  lemma BucketsStep(m: map<string, seq<KeyAndNodeSpec>>, nodes: seq<KeyAndNodeSpec>, i: nat)
    requires i < |nodes| && nodes[i].1.nodeType in m
    requires forall t | t in m :: m[t] == Bucket(nodes[..i], t)
    ensures var m' := m[nodes[i].1.nodeType := m[nodes[i].1.nodeType] + [nodes[i]]];
      (forall t :: t in m' <==> t in m) && forall t | t in m' :: m'[t] == Bucket(nodes[..i + 1], t)
  {
    assert nodes[..i + 1] == nodes[..i] + [nodes[i]];
    forall t | t in m ensures Bucket(nodes[..i + 1], t) == Bucket(nodes[..i], t) + (if nodes[i].1.nodeType == t then [nodes[i]] else []) {
      BucketSnoc(nodes[..i], nodes[i], t);
    }
  }

  /** The filled buckets, concatenated in rank order, are the prescribed order. */
  lemma BucketsComplete(m: map<string, seq<KeyAndNodeSpec>>, nodes: seq<KeyAndNodeSpec>)
    requires forall t :: t in m <==> IsNodeType(t)
    requires forall t | t in m :: m[t] == Bucket(nodes, t)
    ensures Historical in m && Overlord in m && MiddleManager in m && Indexer in m
    ensures Broker in m && Coordinator in m && Router in m
    ensures [] + m[Historical] + m[Overlord] + m[MiddleManager] + m[Indexer] + m[Broker] + m[Coordinator] + m[Router]
      == Ordered(nodes)
  {
    OrderedUnfold(nodes);
    assert [] + m[Historical] == m[Historical];
  }

  /** The loop state after the first `i` node specs: one bucket per known type, each Bucket of the prefix. */
  ghost predicate Grouped(m: map<string, seq<KeyAndNodeSpec>>, nodes: seq<KeyAndNodeSpec>, i: nat)
    requires i <= |nodes|
  {
    AllKnown(nodes[..i]) &&
    (forall t :: t in m <==> IsNodeType(t)) &&
    (forall t | t in m :: m[t] == Bucket(nodes[..i], t))
  }

  lemma GroupedInit(nodes: seq<KeyAndNodeSpec>)
    ensures Grouped(EmptyBuckets(), nodes, 0)
  {
    EmptyBucketsKeys();
  }

  lemma GroupedStep(m: map<string, seq<KeyAndNodeSpec>>, nodes: seq<KeyAndNodeSpec>, i: nat)
    requires i < |nodes| && Grouped(m, nodes, i) && nodes[i].1.nodeType in m
    ensures Grouped(m[nodes[i].1.nodeType := m[nodes[i].1.nodeType] + [nodes[i]]], nodes, i + 1)
  {
    BucketsStep(m, nodes, i);
    assert nodes[..i + 1] == nodes[..i] + [nodes[i]];
    AllKnownSnoc(nodes[..i], nodes[i]);
  }

  lemma GroupedUnknown(m: map<string, seq<KeyAndNodeSpec>>, nodes: seq<KeyAndNodeSpec>, i: nat)
    requires i < |nodes| && Grouped(m, nodes, i) && nodes[i].1.nodeType !in m
    ensures !AllKnown(nodes) && FirstUnknown(nodes) == nodes[i].1.nodeType
  {
    FirstUnknownAt(nodes, i);
  }

  lemma GroupedDone(m: map<string, seq<KeyAndNodeSpec>>, nodes: seq<KeyAndNodeSpec>)
    requires Grouped(m, nodes, |nodes|)
    ensures AllKnown(nodes)
    ensures forall t :: t in m <==> IsNodeType(t)
    ensures forall t | t in m :: m[t] == Bucket(nodes, t)
  {
    assert nodes[..|nodes|] == nodes;
  }

  /**
   * The grouping loop of `getAllNodeSpecsInDruidPrescribedOrder`: node specs
   * go into the bucket of their type in input order, and the first node spec
   * of a type without a bucket aborts with the invalid-node-type error.
   */
  method GroupByNodeType(c: Druid) returns (r: Result<map<string, seq<KeyAndNodeSpec>>, Error>)
    ensures AllKnown(c.spec.nodes) ==> r.Success?
    ensures r.Success? ==> forall t :: t in r.value <==> IsNodeType(t)
    ensures r.Success? ==> forall t | t in r.value :: r.value[t] == Bucket(c.spec.nodes, t)
    ensures !AllKnown(c.spec.nodes) ==>
      r == Failure(InvalidNodeType(InvalidNodeTypeMessage(c, FirstUnknown(c.spec.nodes))))
  {
    var nodes := c.spec.nodes;
    var nodeSpecsByNodeType := EmptyBuckets();
    GroupedInit(nodes);
    var i := 0;
    while i < |nodes|
      invariant 0 <= i <= |nodes|
      invariant Grouped(nodeSpecsByNodeType, nodes, i)
    {
      var nodeSpec := nodes[i].1;
      if nodeSpec.nodeType !in nodeSpecsByNodeType {
        GroupedUnknown(nodeSpecsByNodeType, nodes, i);
        return Failure(InvalidNodeType(InvalidNodeTypeMessage(c, nodeSpec.nodeType)));
      }
      GroupedStep(nodeSpecsByNodeType, nodes, i);
      nodeSpecsByNodeType := nodeSpecsByNodeType[nodeSpec.nodeType := nodeSpecsByNodeType[nodeSpec.nodeType] + [nodes[i]]];
      i := i + 1;
    }
    GroupedDone(nodeSpecsByNodeType, nodes);
    return Success(nodeSpecsByNodeType);
  }

  /**
   * `getAllNodeSpecsInDruidPrescribedOrder`: fails on the first node spec
   * (in iteration order) whose type is unknown, with the source's message;
   * otherwise returns the prescribed order.
   */
  method GetAllNodeSpecsInDruidPrescribedOrder(c: Druid) returns (r: Result<seq<KeyAndNodeSpec>, Error>)
    ensures AllKnown(c.spec.nodes) ==> r == Success(Ordered(c.spec.nodes))
    ensures !AllKnown(c.spec.nodes) ==>
      r == Failure(InvalidNodeType(InvalidNodeTypeMessage(c, FirstUnknown(c.spec.nodes))))
  {
    var grouped := GroupByNodeType(c);
    if grouped.Failure? {
      return Failure(grouped.error);
    }
    var nodeSpecsByNodeType := grouped.value;
    BucketsComplete(nodeSpecsByNodeType, c.spec.nodes);
    var allNodeSpecs := [];
    allNodeSpecs := allNodeSpecs + nodeSpecsByNodeType[Historical];
    allNodeSpecs := allNodeSpecs + nodeSpecsByNodeType[Overlord];
    allNodeSpecs := allNodeSpecs + nodeSpecsByNodeType[MiddleManager];
    allNodeSpecs := allNodeSpecs + nodeSpecsByNodeType[Indexer];
    allNodeSpecs := allNodeSpecs + nodeSpecsByNodeType[Broker];
    allNodeSpecs := allNodeSpecs + nodeSpecsByNodeType[Coordinator];
    allNodeSpecs := allNodeSpecs + nodeSpecsByNodeType[Router];
    return Success(allNodeSpecs);
  }

}
