/**
 * The spec validator of pkg/controller/validation/validation.go. Every check
 * runs; each failed check appends one newline-terminated message to the
 * validator's error text and clears its `validated` flag.
 */
module Validation {
  import opened Types

  /** The ten checks, cluster-level ones first. */
  datatype Check =
    | CommonRuntimePropertiesCheck | CommonConfigMountPathCheck | StartScriptCheck | ImageCheck
    | NodeTypeCheck | ReplicasCheck | RuntimePropertiesCheck | MountPathCheck | ServiceCheck | NodeNameCheck

  /**
   * The text reported for a failed check, without its newline. Each text is
   * written as short pieces because the newline lemmas below are proved piece
   * by piece; the pieces spell the message exactly.
   */
  function Text(k: Check): (r: string)
    ensures |r| > 5 && r[|r| - 5..] == " Spec"
  {
    match k
    case CommonRuntimePropertiesCheck => "CommonRuntimeProperties" + " missing from" + " Druid Cluster" + " Spec"
    case CommonConfigMountPathCheck => "CommonConfigMountPath" + " missing from" + " Druid Cluster" + " Spec"
    case StartScriptCheck => "StartScript" + " missing from" + " Druid Cluster" + " Spec"
    case ImageCheck => "Image missing from" + " Druid Cluster" + " Spec"
    case NodeTypeCheck => "NodeType missing" + " from Druid Node" + " Spec"
    case ReplicasCheck => "Minimum of one" + " Replicas needed" + " in Druid Node" + " Spec"
    case RuntimePropertiesCheck => "RuntimeProperties" + " missing in Druid" + " Node Spec"
    case MountPathCheck => "MountPath missing" + " in Druid Node" + " Spec"
    case ServiceCheck => "Service is missing" + " in Druid Node" + " Spec"
    case NodeNameCheck => "Node Name missing" + " in Druid Node" + " Spec"
  }

  /** The message appended for a failed check: its text and a newline. */
  function Message(k: Check): string {
    Text(k) + "\n"
  }

  /** What one check contributes to the error text: its message when it failed, nothing otherwise. */
  function Reported(failed: bool, k: Check): string {
    if failed then Message(k) else ""
  }

  /** The text the four cluster-level checks append, in the order they run. */
  function ClusterText(s: DruidSpec): string {
    Reported(s.commonRuntimeProperties == "", CommonRuntimePropertiesCheck)
    + Reported(s.commonConfigMountPath == "", CommonConfigMountPathCheck)
    + Reported(s.startScript == "", StartScriptCheck)
    + Reported(s.image == "", ImageCheck)
  }

  /** The text the six checks of one node spec append, in the order they run. */
  function NodeText(n: NodeSpec): string {
    Reported(n.nodeType == "", NodeTypeCheck)
    + Reported(n.replicas < 1, ReplicasCheck)
    + Reported(n.runtimeProperties == "", RuntimePropertiesCheck)
    + Reported(n.mountPath == "", MountPathCheck)
    + Reported(n.service.port == 0 || n.service.targetPort == 0, ServiceCheck)
    + Reported(n.name == "", NodeNameCheck)
  }

  /** The text the node checks append, node after node. */
  function NodesText(nodes: seq<KeyAndNodeSpec>): string {
    if nodes == [] then ""
    else NodesText(nodes[..|nodes| - 1]) + NodeText(nodes[|nodes| - 1].1)
  }

  /** The whole text one validation of `c` appends to the error message. */
  function ValidationText(c: Druid): string {
    ClusterText(c.spec) + NodesText(c.spec.nodes)
  }

  // ----- an independent statement of what a valid spec is -----

  ghost predicate ClusterSpecOk(s: DruidSpec) {
    s.commonRuntimeProperties != "" && s.commonConfigMountPath != ""
    && s.startScript != "" && s.image != ""
  }

  ghost predicate NodeSpecOk(n: NodeSpec) {
    n.nodeType != "" && n.replicas >= 1 && n.runtimeProperties != "" && n.mountPath != ""
    && n.service.port != 0 && n.service.targetPort != 0 && n.name != ""
  }

  ghost predicate NodesOk(nodes: seq<KeyAndNodeSpec>) {
    forall i | 0 <= i < |nodes| :: NodeSpecOk(nodes[i].1)
  }

  ghost predicate DruidOk(c: Druid) {
    ClusterSpecOk(c.spec) && NodesOk(c.spec.nodes)
  }

  /** The number of checks that fail on `c`, counted check by check. */
  function FailedChecks(c: Druid): nat {
    ClusterFailedChecks(c.spec) + NodesFailedChecks(c.spec.nodes)
  }

  function Count(b: bool): nat { if b then 1 else 0 }

  function ClusterFailedChecks(s: DruidSpec): nat {
    Count(s.commonRuntimeProperties == "") + Count(s.commonConfigMountPath == "")
    + Count(s.startScript == "") + Count(s.image == "")
  }

  function NodeFailedChecks(n: NodeSpec): nat {
    Count(n.nodeType == "") + Count(n.replicas < 1) + Count(n.runtimeProperties == "")
    + Count(n.mountPath == "") + Count(n.service.port == 0 || n.service.targetPort == 0)
    + Count(n.name == "")
  }

  function NodesFailedChecks(nodes: seq<KeyAndNodeSpec>): nat {
    if nodes == [] then 0 else NodeFailedChecks(nodes[0].1) + NodesFailedChecks(nodes[1..])
  }

  /** The number of newline characters in a string. */
  function Lines(s: string): nat {
    if s == [] then 0 else Lines(s[..|s| - 1]) + Count(s[|s| - 1] == '\n')
  }

  class Validator {
    var validated: bool
    var errorMessage: string

    /** The zero value `validation.Validator{}`. */
    constructor ()
      ensures !validated && errorMessage == ""
    {
      validated := false;
      errorMessage := "";
    }

    /**
     * Runs every check on `c`; the messages of the failed ones are appended
     * to `errorMessage` in order, and `validated` ends true iff none failed.
     */
    method Validate(c: Druid)
      modifies this
      ensures errorMessage == old(errorMessage) + ValidationText(c)
      ensures validated <==> DruidOk(c)
    {
      validated := true;
      Report(c.spec.commonRuntimeProperties == "", CommonRuntimePropertiesCheck);
      Report(c.spec.commonConfigMountPath == "", CommonConfigMountPathCheck);
      Report(c.spec.startScript == "", StartScriptCheck);
      Report(c.spec.image == "", ImageCheck);
      ClusterTextInOrder(old(errorMessage), c.spec);

      var nodes := c.spec.nodes;
      ghost var prior := old(errorMessage) + ClusterText(c.spec);
      assert nodes[..0] == [];
      var i := 0;
      while i < |nodes|
        invariant 0 <= i <= |nodes|
        invariant errorMessage == prior + NodesText(nodes[..i])
        invariant validated <==> ClusterSpecOk(c.spec) && NodesOk(nodes[..i])
      {
        ValidateNode(nodes[i].1);
        NodesTextStep(prior, nodes, i);
        NodesOkStep(nodes, i);
        i := i + 1;
      }
      assert nodes[..i] == nodes;
      AppendAssoc(old(errorMessage), ClusterText(c.spec), NodesText(nodes));
    }

    /** The body of Validate's loop: the six checks of one node spec. */
    method ValidateNode(n: NodeSpec)
      modifies this
      ensures errorMessage == old(errorMessage) + NodeText(n)
      ensures validated == (old(validated) && NodeSpecOk(n))
    {
      Report(n.nodeType == "", NodeTypeCheck);
      Report(n.replicas < 1, ReplicasCheck);
      Report(n.runtimeProperties == "", RuntimePropertiesCheck);
      Report(n.mountPath == "", MountPathCheck);
      Report(n.service.port == 0 || n.service.targetPort == 0, ServiceCheck);
      Report(n.name == "", NodeNameCheck);
      NodeTextInOrder(old(errorMessage), n);
    }

    /**
     * The shape every check of validation.go shares: when the check failed,
     * its message is appended to the error text and `validated` is cleared.
     */
    method Report(failed: bool, k: Check)
      modifies this
      ensures errorMessage == old(errorMessage) + Reported(failed, k)
      ensures validated == (old(validated) && !failed)
    {
      if failed {
        errorMessage := errorMessage + Message(k);
        validated := false;
      }
    }
  }

  // ----- helpers for the proofs of Validate -----

  lemma AppendAssoc(a: string, b: string, c: string)
    ensures a + b + c == a + (b + c)
  {
  }

  lemma ClusterTextInOrder(prior: string, s: DruidSpec)
    ensures prior + Reported(s.commonRuntimeProperties == "", CommonRuntimePropertiesCheck)
      + Reported(s.commonConfigMountPath == "", CommonConfigMountPathCheck)
      + Reported(s.startScript == "", StartScriptCheck)
      + Reported(s.image == "", ImageCheck)
      == prior + ClusterText(s)
  {
    var r1 := Reported(s.commonRuntimeProperties == "", CommonRuntimePropertiesCheck);
    var r2 := Reported(s.commonConfigMountPath == "", CommonConfigMountPathCheck);
    var r3 := Reported(s.startScript == "", StartScriptCheck);
    var r4 := Reported(s.image == "", ImageCheck);
    AppendAssoc4(prior, r1, r2, r3, r4);
  }

  lemma NodeTextInOrder(prior: string, n: NodeSpec)
    ensures prior + Reported(n.nodeType == "", NodeTypeCheck)
      + Reported(n.replicas < 1, ReplicasCheck)
      + Reported(n.runtimeProperties == "", RuntimePropertiesCheck)
      + Reported(n.mountPath == "", MountPathCheck)
      + Reported(n.service.port == 0 || n.service.targetPort == 0, ServiceCheck)
      + Reported(n.name == "", NodeNameCheck)
      == prior + NodeText(n)
  {
    var r1 := Reported(n.nodeType == "", NodeTypeCheck);
    var r2 := Reported(n.replicas < 1, ReplicasCheck);
    var r3 := Reported(n.runtimeProperties == "", RuntimePropertiesCheck);
    var r4 := Reported(n.mountPath == "", MountPathCheck);
    var r5 := Reported(n.service.port == 0 || n.service.targetPort == 0, ServiceCheck);
    var r6 := Reported(n.name == "", NodeNameCheck);
    AppendAssoc6(prior, r1, r2, r3, r4, r5, r6);
  }

  lemma AppendAssoc4(p: string, a: string, b: string, c: string, d: string)
    ensures p + a + b + c + d == p + (a + b + c + d)
  {
  }

  lemma AppendAssoc6(p: string, a: string, b: string, c: string, d: string, e: string, f: string)
    ensures p + a + b + c + d + e + f == p + (a + b + c + d + e + f)
  {
  }

  /** One turn of Validate's loop extends the text by node `i`'s text. */
  lemma NodesTextStep(prior: string, nodes: seq<KeyAndNodeSpec>, i: nat)
    requires i < |nodes|
    ensures prior + NodesText(nodes[..i]) + NodeText(nodes[i].1) == prior + NodesText(nodes[..i + 1])
  {
    assert nodes[..i + 1][..i] == nodes[..i];
    AppendAssoc(prior, NodesText(nodes[..i]), NodeText(nodes[i].1));
  }

  lemma NodesOkStep(nodes: seq<KeyAndNodeSpec>, i: nat)
    requires i < |nodes|
    ensures NodesOk(nodes[..i + 1]) <==> NodesOk(nodes[..i]) && NodeSpecOk(nodes[i].1)
  {
    assert nodes[..i + 1][i] == nodes[i];
    assert forall j | 0 <= j < i :: nodes[..i + 1][j] == nodes[..i][j];
  }

  // ----- properties of the validation -----

  lemma MessageNotEmpty(k: Check)
    ensures |Message(k)| > 0
  {
  }

  lemma {:induction false} NodesTextEmpty(nodes: seq<KeyAndNodeSpec>)
    ensures NodesText(nodes) == "" <==> NodesOk(nodes)
    decreases |nodes|
  {
    if nodes != [] {
      var last := |nodes| - 1;
      NodesTextEmpty(nodes[..last]);
      NodesOkStep(nodes, last);
      assert nodes[..last + 1] == nodes;
      forall k: Check { MessageNotEmpty(k); }
    }
  }

  /** A validation appends nothing exactly when every check passes. */
  lemma TextEmptyIffValid(c: Druid)
    ensures ValidationText(c) == "" <==> DruidOk(c)
  {
    NodesTextEmpty(c.spec.nodes);
    forall k: Check { MessageNotEmpty(k); }
  }

  lemma {:induction false} LinesAppend(s: string, t: string)
    ensures Lines(s + t) == Lines(s) + Lines(t)
    decreases |t|
  {
    if t == [] {
      assert s + t == s;
    } else {
      var t' := t[..|t| - 1];
      assert (s + t)[..|s + t| - 1] == s + t';
      assert (s + t)[|s + t| - 1] == t[|t| - 1];
      LinesAppend(s, t');
    }
  }

  lemma {:induction false} NoNewline(s: string)
    requires '\n' !in s
    ensures Lines(s) == 0
    decreases |s|
  {
    if s != [] {
      assert s == s[..|s| - 1] + [s[|s| - 1]];
      NoNewline(s[..|s| - 1]);
    }
  }

  lemma NoNewline2(a: string, b: string)
    requires '\n' !in a && '\n' !in b
    ensures '\n' !in a + b
  {
  }

  lemma NoNewline3(a: string, b: string, c: string)
    requires '\n' !in a && '\n' !in b && '\n' !in c
    ensures '\n' !in a + b + c
  {
    NoNewline2(a, b);
    NoNewline2(a + b, c);
  }

  lemma NoNewline4(a: string, b: string, c: string, d: string)
    requires '\n' !in a && '\n' !in b && '\n' !in c && '\n' !in d
    ensures '\n' !in a + b + c + d
  {
    NoNewline3(a, b, c);
    NoNewline2(a + b + c, d);
  }

  /** No check's text contains a newline. */
  lemma TextHasNoNewline(k: Check)
    ensures '\n' !in Text(k)
  {
    if IsClusterCheck(k) {
      ClusterTextHasNoNewline(k);
    } else {
      NodeCheckTextHasNoNewline(k);
    }
  }

  predicate IsClusterCheck(k: Check) {
    k.CommonRuntimePropertiesCheck? || k.CommonConfigMountPathCheck? || k.StartScriptCheck? || k.ImageCheck?
  }

  lemma ClusterTextHasNoNewline(k: Check)
    requires IsClusterCheck(k)
    ensures '\n' !in Text(k)
  {
    match k
    case CommonRuntimePropertiesCheck =>
      NoNewline4("CommonRuntimeProperties", " missing from", " Druid Cluster", " Spec");
    case CommonConfigMountPathCheck =>
      NoNewline4("CommonConfigMountPath", " missing from", " Druid Cluster", " Spec");
    case StartScriptCheck =>
      NoNewline4("StartScript", " missing from", " Druid Cluster", " Spec");
    case ImageCheck =>
      NoNewline3("Image missing from", " Druid Cluster", " Spec");
  }

  lemma NodeCheckTextHasNoNewline(k: Check)
    requires !IsClusterCheck(k)
    ensures '\n' !in Text(k)
  {
    match k
    case NodeTypeCheck =>
      NoNewline3("NodeType missing", " from Druid Node", " Spec");
    case ReplicasCheck =>
      NoNewline4("Minimum of one", " Replicas needed", " in Druid Node", " Spec");
    case RuntimePropertiesCheck =>
      NoNewline3("RuntimeProperties", " missing in Druid", " Node Spec");
    case MountPathCheck =>
      NoNewline3("MountPath missing", " in Druid Node", " Spec");
    case ServiceCheck =>
      NoNewline3("Service is missing", " in Druid Node", " Spec");
    case NodeNameCheck =>
      NoNewline3("Node Name missing", " in Druid Node", " Spec");
  }

  /** Every message is one line: exactly one newline, at its end. */
  lemma MessageIsOneLine(k: Check)
    ensures Lines(Message(k)) == 1
    ensures Message(k)[|Message(k)| - 1] == '\n'
  {
    TextHasNoNewline(k);
    NoNewline(Text(k));
    LinesAppend(Text(k), "\n");
  }

  lemma ReportedLines(failed: bool, k: Check)
    ensures Lines(Reported(failed, k)) == Count(failed)
  {
    if failed {
      MessageIsOneLine(k);
    }
  }

  lemma Lines3(a: string, b: string, c: string, fa: bool, fb: bool, fc: bool)
    requires Lines(a) == Count(fa) && Lines(b) == Count(fb) && Lines(c) == Count(fc)
    ensures Lines(a + b + c) == Count(fa) + Count(fb) + Count(fc)
  {
    LinesAppend(a, b);
    LinesAppend(a + b, c);
  }

  lemma LinesAfter3(a: string, b: string, c: string, d: string, fb: bool, fc: bool, fd: bool)
    requires Lines(b) == Count(fb) && Lines(c) == Count(fc) && Lines(d) == Count(fd)
    ensures Lines(a + b + c + d) == Lines(a) + Count(fb) + Count(fc) + Count(fd)
  {
    LinesAppend(a, b);
    LinesAppend(a + b, c);
    LinesAppend(a + b + c, d);
  }

  lemma ClusterTextLines(s: DruidSpec)
    ensures Lines(ClusterText(s)) == ClusterFailedChecks(s)
  {
    var r1 := Reported(s.commonRuntimeProperties == "", CommonRuntimePropertiesCheck);
    var r2 := Reported(s.commonConfigMountPath == "", CommonConfigMountPathCheck);
    var r3 := Reported(s.startScript == "", StartScriptCheck);
    var r4 := Reported(s.image == "", ImageCheck);
    ReportedLines(s.commonRuntimeProperties == "", CommonRuntimePropertiesCheck);
    ReportedLines(s.commonConfigMountPath == "", CommonConfigMountPathCheck);
    ReportedLines(s.startScript == "", StartScriptCheck);
    ReportedLines(s.image == "", ImageCheck);
    Lines3(r1, r2, r3, s.commonRuntimeProperties == "", s.commonConfigMountPath == "", s.startScript == "");
    LinesAppend(r1 + r2 + r3, r4);
  }

  /** The first three checks of a node spec contribute one line each when they fail. */
  lemma NodeTextLinesFirst(n: NodeSpec)
    ensures Lines(Reported(n.nodeType == "", NodeTypeCheck) + Reported(n.replicas < 1, ReplicasCheck)
          + Reported(n.runtimeProperties == "", RuntimePropertiesCheck))
         == Count(n.nodeType == "") + Count(n.replicas < 1) + Count(n.runtimeProperties == "")
  {
    ReportedLines(n.nodeType == "", NodeTypeCheck);
    ReportedLines(n.replicas < 1, ReplicasCheck);
    ReportedLines(n.runtimeProperties == "", RuntimePropertiesCheck);
    Lines3(Reported(n.nodeType == "", NodeTypeCheck), Reported(n.replicas < 1, ReplicasCheck),
      Reported(n.runtimeProperties == "", RuntimePropertiesCheck),
      n.nodeType == "", n.replicas < 1, n.runtimeProperties == "");
  }

  /** The last three checks of a node spec contribute one line each when they fail. */
  lemma NodeTextLinesLast(first: string, n: NodeSpec)
    ensures Lines(first + Reported(n.mountPath == "", MountPathCheck)
          + Reported(n.service.port == 0 || n.service.targetPort == 0, ServiceCheck)
          + Reported(n.name == "", NodeNameCheck))
         == Lines(first) + Count(n.mountPath == "")
          + Count(n.service.port == 0 || n.service.targetPort == 0) + Count(n.name == "")
  {
    ReportedLines(n.mountPath == "", MountPathCheck);
    ReportedLines(n.service.port == 0 || n.service.targetPort == 0, ServiceCheck);
    ReportedLines(n.name == "", NodeNameCheck);
    LinesAfter3(first, Reported(n.mountPath == "", MountPathCheck),
      Reported(n.service.port == 0 || n.service.targetPort == 0, ServiceCheck),
      Reported(n.name == "", NodeNameCheck),
      n.mountPath == "", n.service.port == 0 || n.service.targetPort == 0, n.name == "");
  }

  lemma NodeTextLines(n: NodeSpec)
    ensures Lines(NodeText(n)) == NodeFailedChecks(n)
  {
    NodeTextLinesFirst(n);
    NodeTextLinesLast(Reported(n.nodeType == "", NodeTypeCheck) + Reported(n.replicas < 1, ReplicasCheck)
      + Reported(n.runtimeProperties == "", RuntimePropertiesCheck), n);
  }

  lemma {:induction false} NodesFailedChecksSnoc(nodes: seq<KeyAndNodeSpec>, n: KeyAndNodeSpec)
    ensures NodesFailedChecks(nodes + [n]) == NodesFailedChecks(nodes) + NodeFailedChecks(n.1)
    decreases |nodes|
  {
    if nodes == [] {
      assert [] + [n] == [n];
    } else {
      assert (nodes + [n])[1..] == nodes[1..] + [n];
      NodesFailedChecksSnoc(nodes[1..], n);
    }
  }

  lemma {:induction false} NodesTextLines(nodes: seq<KeyAndNodeSpec>)
    ensures Lines(NodesText(nodes)) == NodesFailedChecks(nodes)
    decreases |nodes|
  {
    if nodes != [] {
      var init := nodes[..|nodes| - 1];
      var last := nodes[|nodes| - 1];
      NodesTextLines(init);
      LinesAppend(NodesText(init), NodeText(last.1));
      NodeTextLines(last.1);
      NodesFailedChecksSnoc(init, last);
      assert init + [last] == nodes;
    }
  }

  /**
   * Each failed check contributes exactly one newline-terminated line, so the
   * number of lines a validation appends is the number of failed checks.
   */
  lemma TextLinesAreFailedChecks(c: Druid)
    ensures Lines(ValidationText(c)) == FailedChecks(c)
  {
    ClusterTextLines(c.spec);
    NodesTextLines(c.spec.nodes);
    LinesAppend(ClusterText(c.spec), NodesText(c.spec.nodes));
  }

  /** The counted failures are zero exactly when the spec is valid. */
  lemma {:induction false} NodesFailedChecksZero(nodes: seq<KeyAndNodeSpec>)
    ensures NodesFailedChecks(nodes) == 0 <==> NodesOk(nodes)
    decreases |nodes|
  {
    if nodes != [] {
      NodesFailedChecksZero(nodes[1..]);
      assert forall j | 1 <= j < |nodes| :: nodes[1..][j - 1] == nodes[j];
    }
  }

  lemma FailedChecksZeroIffValid(c: Druid)
    ensures FailedChecks(c) == 0 <==> DruidOk(c)
  {
    NodesFailedChecksZero(c.spec.nodes);
  }

  /** The node texts are reported node after node, in the iteration order of the nodes. */
  lemma {:induction false} NodesTextAppend(a: seq<KeyAndNodeSpec>, b: seq<KeyAndNodeSpec>)
    ensures NodesText(a + b) == NodesText(a) + NodesText(b)
    decreases |b|
  {
    if b == [] {
      assert a + b == a;
    } else {
      var b' := b[..|b| - 1];
      assert (a + b)[..|a + b| - 1] == a + b';
      assert (a + b)[|a + b| - 1] == b[|b| - 1];
      NodesTextAppend(a, b');
      AppendAssoc(NodesText(a), NodesText(b'), NodeText(b[|b| - 1].1));
    }
  }

  /**
   * The appended text keeps the prior error text as a prefix, and a spec
   * whose every check passes leaves the error text exactly as it was.
   */
  lemma ErrorMessageOnlyGrows(prior: string, c: Druid)
    ensures (prior + ValidationText(c))[..|prior|] == prior
    ensures DruidOk(c) <==> prior + ValidationText(c) == prior
  {
    TextEmptyIffValid(c);
    if prior + ValidationText(c) == prior {
      assert |ValidationText(c)| == 0;
    }
  }
}
