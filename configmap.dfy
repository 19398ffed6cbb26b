/**
 * The per-node runtime-properties ConfigMap of
 * pkg/controller/nodes/configmap.go.
 */
module ConfigMaps {
  import opened Types

  /** `makeConfigMapName`: "<NodeType>-runtime-properties". */
  function ConfigMapName(cc: NodeSpec): (r: string)
    ensures |r| == |cc.nodeType| + 19
    ensures r[..|cc.nodeType|] == cc.nodeType && r[|cc.nodeType|..] == "-runtime-properties"
  {
    cc.nodeType + "-runtime-properties"
  }

  /** The desired ConfigMap of a node spec. */
  function MakeConfigMap(cc: NodeSpec, c: Druid): (m: ConfigMap)
    ensures m.typeMeta == TypeMeta("ConfigMap", "v1")
    ensures m.meta.name == ConfigMapName(cc) && m.meta.namespace == c.meta.namespace
    ensures m.data.Keys == {"runtime.properties"}
    ensures m.data["runtime.properties"] == cc.runtimeProperties
    ensures m.binaryData == map[]
  {
    ConfigMap(
      TypeMeta("ConfigMap", "v1"),
      NamedMeta(ConfigMapName(cc), c.meta.namespace, map[]),
      map["runtime.properties" := cc.runtimeProperties],
      map[])
  }

  /** Appending the same suffix to two strings keeps them apart. */
  lemma SuffixCancels(x: string, y: string, suffix: string)
    requires x + suffix == y + suffix
    ensures x == y
  {
    assert |x| == |y|;
    assert x == (x + suffix)[..|x|];
    assert y == (y + suffix)[..|y|];
  }

  /**
   * The ConfigMap name depends on the node type alone: two node specs get
   * the same name exactly when their node types agree, whatever their names.
   */
  lemma ConfigMapNameIffSameNodeType(a: NodeSpec, b: NodeSpec)
    ensures ConfigMapName(a) == ConfigMapName(b) <==> a.nodeType == b.nodeType
  {
    if ConfigMapName(a) == ConfigMapName(b) {
      SuffixCancels(a.nodeType, b.nodeType, "-runtime-properties");
    }
  }

  /**
   * Two node specs of one node type with different runtime properties get
   * ConfigMaps that share a name and namespace but differ in their data.
   */
  lemma SameNodeTypeSharesConfigMap(a: NodeSpec, b: NodeSpec, c: Druid)
    requires a.nodeType == b.nodeType && a.runtimeProperties != b.runtimeProperties
    ensures MakeConfigMap(a, c).meta.name == MakeConfigMap(b, c).meta.name
    ensures MakeConfigMap(a, c).data != MakeConfigMap(b, c).data
  {
    assert MakeConfigMap(a, c).data["runtime.properties"] != MakeConfigMap(b, c).data["runtime.properties"];
  }
}
