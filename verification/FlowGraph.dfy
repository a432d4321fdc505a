/** The deduplicating, laid-out graph under buildReactFlowGraph: node and edge identifiers as
    text, pushNode, pushEdge and nextPosition. */
module FlowGraph {
  import opened Seqs
  import Inventory

  // ----- identifiers -----

  datatype Prefix =
    | Root | VpcP | SubnetP | Ec2P | ListenerP | LbP | RouteTableP | SecurityGroupP | RdsP | CacheP | LambdaP
    | EksP | ClusterP | ServiceP | TaskDefP | GlobalP(kind: Inventory.GlobalKind)

  datatype NodeRef = NodeRef(prefix: Prefix, id: string)

  function PrefixText(p: Prefix): string
  {
    match p
    case Root => "global"
    case VpcP => "vpc"
    case SubnetP => "subnet"
    case Ec2P => "ec2"
    case ListenerP => "lb-listener"
    case LbP => "lb"
    case RouteTableP => "rt"
    case SecurityGroupP => "sg"
    case RdsP => "rds"
    case CacheP => "cache"
    case LambdaP => "lambda"
    case EksP => "eks-cluster"
    case ClusterP => "ecs-cluster"
    case ServiceP => "ecs-service"
    case TaskDefP => "ecs-taskdef"
    case GlobalP(k) => GlobalText(k)
  }

  function GlobalText(k: Inventory.GlobalKind): string
  {
    match k
    case S3Buckets => "s3"
    case CloudFront => "cloudfront"
    case Route53 => "route53"
    case IamRoles => "iam"
    case CloudTrail => "cloudtrail"
    case CloudWatch => "cloudwatch"
    case GuardDuty => "guardduty"
    case KmsKeys => "kms"
    case Secrets => "secret"
    case EcrRepositories => "ecr"
    case DynamoDb => "dynamodb"
    case SqsQueues => "sqs"
    case SnsTopics => "sns"
    case WafAcls => "waf"
    case ApiGateways => "api-gw"
  }

  /** The node id `${prefix}:${id}`. */
  function Print(r: NodeRef): string { PrefixText(r.prefix) + ":" + r.id }

  /** The edge id `edge:${source}->${target}:${relationship}`. */
  function EdgeId(source: string, target: string, relationship: string): string
  {
    "edge:" + source + "->" + target + ":" + relationship
  }

  lemma PrefixTextShape(p: Prefix)
    ensures |PrefixText(p)| >= 2 && ':' !in PrefixText(p) && '>' !in PrefixText(p)
  {
    match p
    case Root => case VpcP => case SubnetP => case Ec2P => case ListenerP => case LbP => case RouteTableP =>
    case SecurityGroupP => case RdsP => case CacheP => case LambdaP => case EksP => case ClusterP =>
    case ServiceP => case TaskDefP =>
    case GlobalP(k) =>
      match k {
        case S3Buckets => case CloudFront => case Route53 => case IamRoles => case CloudTrail => case CloudWatch =>
        case GuardDuty => case KmsKeys => case Secrets => case EcrRepositories => case DynamoDb => case SqsQueues =>
        case SnsTopics => case WafAcls => case ApiGateways =>
      }
  }

  /** No two resource kinds print the same prefix. */
  lemma PrefixTextInjective(p: Prefix, q: Prefix)
    requires PrefixText(p) == PrefixText(q)
    ensures p == q
  {
    PrefixTextShape(p);
    var s, t := PrefixText(p), PrefixText(q);
    assert |s| == |t| && s[0] == t[0] && s[1] == t[1] && s[|s| - 1] == t[|t| - 1];
  }

  /** The node-id printer is injective, whatever characters the ids hold. */
  lemma PrintInjective(r: NodeRef, s: NodeRef)
    requires Print(r) == Print(s)
    ensures r == s
  {
    PrefixTextShape(r.prefix);
    PrefixTextShape(s.prefix);
    SplitAtFirst(':', PrefixText(r.prefix), r.id, PrefixText(s.prefix), s.id);
    PrefixTextInjective(r.prefix, s.prefix);
  }

  /** No "->" in the text. */
  predicate NoArrow(s: string) { forall i :: 0 <= i < |s| - 1 ==> s[i] != '-' || s[i + 1] != '>' }

  /** The longer source continues the shorter one past an arrow that was printed as a separator. */
  ghost predicate Swallows(s: string, t: string, s': string, t': string)
  {
    exists w :: s' == s + "->" + w && t == w + "->" + t'
  }

  /** When two edge ids coincide, for relationships without ':': the edges are the same, or the text between
      them can be split at two arrows. */
  lemma EdgeIdMergeIff(s: string, t: string, rel: string, s': string, t': string, rel': string)
    requires ':' !in rel && ':' !in rel' && |s| <= |s'|
    ensures EdgeId(s, t, rel) == EdgeId(s', t', rel') <==>
              rel == rel' && ((s == s' && t == t') || Swallows(s, t, s', t'))
  {
    var a, b := s + "->" + t, s' + "->" + t';
    assert EdgeId(s, t, rel) == ("edge:" + a) + [':'] + rel && EdgeId(s', t', rel') == ("edge:" + b) + [':'] + rel';
    if EdgeId(s, t, rel) == EdgeId(s', t', rel') {
      SplitAtLast(':', "edge:" + a, rel, "edge:" + b, rel');
      assert a == ("edge:" + a)[5..] == ("edge:" + b)[5..] == b;
      ArrowSplit(s, t, s', t');
    }
    if w :| s' == s + "->" + w && t == w + "->" + t' {
      assert s + "->" + (w + "->" + t') == (s + "->" + w) + "->" + t';
    }
  }

  /** Two ways to split one text at an arrow. */
  lemma ArrowSplit(s: string, t: string, s': string, t': string)
    requires |s| <= |s'| && s + "->" + t == s' + "->" + t'
    ensures (s == s' && t == t') || Swallows(s, t, s', t')
  {
    var a, b := s + "->" + t, s' + "->" + t';
    assert s == a[..|s|] && t == a[|s| + 2..] && s' == b[..|s'|] && t' == b[|s'| + 2..];
    assert a[|s|] == '-' && a[|s| + 1] == '>' && b[|s'|] == '-' && b[|s'| + 1] == '>';
    if |s'| > |s| {
      assert |s'| != |s| + 1;
      var w := s'[|s| + 2..];
      assert s' == a[..|s'|] == s + "->" + w;
      assert t == a[|s| + 2..] == w + "->" + t';
    }
  }

  /** For two sources some targets make the edge ids coincide exactly when one source begins with the other
      and an arrow. */
  lemma SourcesCollideIff(s: string, s': string, rel: string)
    requires ':' !in rel && s != s' && |s| <= |s'|
    ensures (exists t, t' :: EdgeId(s, t, rel) == EdgeId(s', t', rel)) <==> s + "->" <= s'
  {
    if t, t' :| EdgeId(s, t, rel) == EdgeId(s', t', rel) {
      EdgeIdMergeIff(s, t, rel, s', t', rel);
    }
    if s + "->" <= s' {
      var w := s'[|s| + 2..];
      assert s' == s + "->" + w;
      assert Swallows(s, w + "->" + "", s', "");
      EdgeIdMergeIff(s, w + "->" + "", rel, s', "", rel);
    }
  }

  lemma SwallowsHasArrow(s: string, t: string, s': string, t': string)
    requires Swallows(s, t, s', t')
    ensures !NoArrow(s')
  {
    var w :| s' == s + "->" + w && t == w + "->" + t';
    assert s'[|s|] == '-' && s'[|s| + 1] == '>';
  }

  /** So the edge-id printer is injective once sources hold no arrow and relationships no ':'. */
  lemma EdgeIdInjective(s: string, t: string, rel: string, s': string, t': string, rel': string)
    requires NoArrow(s) && NoArrow(s') && ':' !in rel && ':' !in rel'
    requires EdgeId(s, t, rel) == EdgeId(s', t', rel')
    ensures s == s' && t == t' && rel == rel'
  {
    hide EdgeId, NoArrow;
    if |s| <= |s'| {
      EdgeIdMergeIff(s, t, rel, s', t', rel');
      if Swallows(s, t, s', t') { SwallowsHasArrow(s, t, s', t'); }
    } else {
      EdgeIdMergeIff(s', t', rel', s, t, rel);
      if Swallows(s', t', s, t) { SwallowsHasArrow(s', t', s, t); }
    }
  }

  /** Two different edges between printed nodes whose ids coincide: one VPC id holds an arrow. */
  lemma EdgeIdCollision()
    ensures var (s, t) := (NodeRef(VpcP, "a"), NodeRef(SubnetP, "b->subnet:c"));
            var (s', t') := (NodeRef(VpcP, "a->subnet:b"), NodeRef(SubnetP, "c"));
            EdgeId(Print(s), Print(t), "contains") == EdgeId(Print(s'), Print(t'), "contains") && s != s' && t != t'
  {
    hide EdgeId;
    var w := "subnet:b";
    assert "vpc:a->subnet:b" == "vpc:a" + "->" + w && "subnet:b->subnet:c" == w + "->" + "subnet:c";
    assert Swallows("vpc:a", "subnet:b->subnet:c", "vpc:a->subnet:b", "subnet:c");
    EdgeIdMergeIff("vpc:a", "subnet:b->subnet:c", "contains", "vpc:a->subnet:b", "subnet:c", "contains");
    PrintsVpcOrSubnet("a");
    PrintsVpcOrSubnet("a->subnet:b");
    PrintsVpcOrSubnet("c");
    PrintsVpcOrSubnet("b->subnet:c");
    hide Print, Swallows;
    assert "vpc:" + "a" == "vpc:a" && "vpc:" + "a->subnet:b" == "vpc:a->subnet:b";
    assert "subnet:" + "c" == "subnet:c" && "subnet:" + "b->subnet:c" == "subnet:b->subnet:c";
  }

  lemma PrintsVpcOrSubnet(id: string)
    ensures Print(NodeRef(VpcP, id)) == "vpc:" + id && Print(NodeRef(SubnetP, id)) == "subnet:" + id
  {
    assert "vpc" + ":" == "vpc:" && "subnet" + ":" == "subnet:";
  }

  // ----- pushes -----

  datatype Kind = GlobalKind | VpcKind | SubnetKind | RouteTableKind | LoadBalancerKind | Ec2Kind | ContainerKind
                | DatabaseKind | ServerlessKind | IdentityKind

  function ColumnX(k: Kind): nat
  {
    match k
    case GlobalKind => 0
    case VpcKind => 260
    case SubnetKind => 520
    case RouteTableKind => 780
    case LoadBalancerKind => 1040
    case Ec2Kind => 1300
    case ContainerKind => 1560
    case DatabaseKind => 1820
    case ServerlessKind => 2080
    case IdentityKind => 2340
  }

  /** The y coordinate below count nodes of the same column. */
  function RowY(count: nat): nat { 80 + count * 120 }

  datatype Push =
    | PushNode(ref: NodeRef, kind: Kind, caption: string)
    | PushEdge(source: NodeRef, target: NodeRef, relationship: string, animated: bool)

  datatype Node = Node(id: string, x: nat, y: nat, caption: string)
  datatype Edge = Edge(id: string, source: string, target: string, relationship: string, animated: bool)
  datatype Graph = Graph(nodes: seq<Node>, edges: seq<Edge>)

  function CountColumn(nodes: seq<Node>, x: nat): nat
  {
    if nodes == [] then 0
    else CountColumn(nodes[..|nodes| - 1], x) + (if nodes[|nodes| - 1].x == x then 1 else 0)
  }

  /** What one push does to the graph: nodes and edges are kept once per id, and a node is laid
      out below those already in its column. */
  function Apply(g: Graph, p: Push): Graph
  {
    match p
    case PushNode(ref, kind, caption) =>
      if exists n :: n in g.nodes && n.id == Print(ref) then g
      else g.(nodes := g.nodes + [Node(Print(ref), ColumnX(kind), RowY(CountColumn(g.nodes, ColumnX(kind))), caption)])
    case PushEdge(source, target, rel, animated) =>
      var id := EdgeId(Print(source), Print(target), rel);
      if exists e :: e in g.edges && e.id == id then g
      else g.(edges := g.edges + [Edge(id, Print(source), Print(target), rel, animated)])
  }

  function Exec(log: seq<Push>): Graph
  {
    if log == [] then Graph([], []) else Apply(Exec(log[..|log| - 1]), log[|log| - 1])
  }

  function NodeIds(g: Graph): set<string> { set n | n in g.nodes :: n.id }
  function EdgeIds(g: Graph): set<string> { set e | e in g.edges :: e.id }

  function NewNodeId(p: Push): set<string> { if p.PushNode? then {Print(p.ref)} else {} }

  function NewEdgeId(p: Push): set<string>
  {
    if p.PushEdge? then {EdgeId(Print(p.source), Print(p.target), p.relationship)} else {}
  }

  lemma ApplyIds(g: Graph, p: Push)
    ensures NodeIds(Apply(g, p)) == NodeIds(g) + NewNodeId(p)
    ensures EdgeIds(Apply(g, p)) == EdgeIds(g) + NewEdgeId(p)
  {
  }

  lemma AfterNode(log: seq<Push>, ref: NodeRef, kind: Kind, caption: string) returns (h: Graph)
    ensures h == Exec(log + [PushNode(ref, kind, caption)])
    ensures NodeIds(h) == NodeIds(Exec(log)) + {Print(ref)} && EdgeIds(h) == EdgeIds(Exec(log))
    ensures h.edges == Exec(log).edges
    ensures Print(ref) in NodeIds(Exec(log)) ==> h.nodes == Exec(log).nodes
    ensures Print(ref) !in NodeIds(Exec(log)) ==>
              h.nodes == Exec(log).nodes +
                         [Node(Print(ref), ColumnX(kind), RowY(CountColumn(Exec(log).nodes, ColumnX(kind))), caption)]
  {
    var p := PushNode(ref, kind, caption);
    ExecStep(log, p);
    ApplyIds(Exec(log), p);
    h := Apply(Exec(log), p);
  }

  function CounterOf(counters: map<Kind, nat>, k: Kind): nat { if k in counters then counters[k] else 0 }

  /** Each kind's counter is the number of nodes in its column. */
  ghost predicate CountersMatch(nodes: seq<Node>, counters: map<Kind, nat>)
  {
    forall k {:trigger CounterOf(counters, k)} :: CounterOf(counters, k) == CountColumn(nodes, ColumnX(k))
  }

  lemma CountersStep(nodes: seq<Node>, counters: map<Kind, nat>, n: Node, kind: Kind)
    requires CountersMatch(nodes, counters) && n.x == ColumnX(kind)
    ensures CountersMatch(nodes + [n], counters[kind := CounterOf(counters, kind) + 1])
  {
    var counters' := counters[kind := CounterOf(counters, kind) + 1];
    forall k ensures CounterOf(counters', k) == CountColumn(nodes + [n], ColumnX(k)) {
      assert (nodes + [n])[..|nodes|] == nodes;
      assert CounterOf(counters, k) == CountColumn(nodes, ColumnX(k));
    }
  }

  lemma ExecStep(log: seq<Push>, p: Push)
    ensures Exec(log + [p]) == Apply(Exec(log), p)
  {
    assert (log + [p])[..|log|] == log;
  }

  /** The arrays, sets and counters hold what the pushes of log produce. */
  ghost predicate Represents(log: seq<Push>, nodes: seq<Node>, edges: seq<Edge>, nodeIds: set<string>,
                             edgeIds: set<string>, counters: map<Kind, nat>)
  {
    && nodes == Exec(log).nodes && edges == Exec(log).edges
    && nodeIds == NodeIds(Exec(log)) && edgeIds == EdgeIds(Exec(log))
    && CountersMatch(nodes, counters)
  }

  lemma NodeStep(log: seq<Push>, nodes: seq<Node>, edges: seq<Edge>, nodeIds: set<string>, edgeIds: set<string>,
                 counters: map<Kind, nat>, ref: NodeRef, kind: Kind, caption: string)
    requires Represents(log, nodes, edges, nodeIds, edgeIds, counters)
    ensures var log' := log + [PushNode(ref, kind, caption)];
            var count := CounterOf(counters, kind);
            var n := Node(Print(ref), ColumnX(kind), RowY(count), caption);
            if Print(ref) in nodeIds then Represents(log', nodes, edges, nodeIds, edgeIds, counters)
            else Represents(log', nodes + [n], edges, nodeIds + {Print(ref)}, edgeIds, counters[kind := count + 1])
  {
    var h := AfterNode(log, ref, kind, caption);
    CountersStep(nodes, counters, Node(Print(ref), ColumnX(kind), RowY(CounterOf(counters, kind)), caption), kind);
  }

  lemma EdgeStep(log: seq<Push>, nodes: seq<Node>, edges: seq<Edge>, nodeIds: set<string>, edgeIds: set<string>,
                 counters: map<Kind, nat>, source: NodeRef, target: NodeRef, rel: string, animated: bool)
    requires Represents(log, nodes, edges, nodeIds, edgeIds, counters)
    ensures var log' := log + [PushEdge(source, target, rel, animated)];
            var id := EdgeId(Print(source), Print(target), rel);
            var e := Edge(id, Print(source), Print(target), rel, animated);
            if id in edgeIds then Represents(log', nodes, edges, nodeIds, edgeIds, counters)
            else Represents(log', nodes, edges + [e], nodeIds, edgeIds + {id}, counters)
  {
    ExecStep(log, PushEdge(source, target, rel, animated));
    ApplyIds(Exec(log), PushEdge(source, target, rel, animated));
  }

  /** The mutable arrays, sets and counters of buildReactFlowGraph, with the pushes made so far. */
  class GraphBuilder {
    var nodes: seq<Node>
    var edges: seq<Edge>
    var nodeIds: set<string>
    var edgeIds: set<string>
    var typeCounters: map<Kind, nat>
    ghost var log: seq<Push>

    ghost predicate Valid()
      reads this
    {
      Represents(log, nodes, edges, nodeIds, edgeIds, typeCounters)
    }

    constructor ()
      ensures Valid() && log == []
    {
      nodes, edges, nodeIds, edgeIds, typeCounters, log := [], [], {}, {}, map[], [];
    }

    method NextPosition(kind: Kind) returns (x: nat, y: nat)
      modifies this`typeCounters
      ensures var count := CounterOf(old(typeCounters), kind);
              x == ColumnX(kind) && y == RowY(count) && typeCounters == old(typeCounters)[kind := count + 1]
    {
      var count := if kind in typeCounters then typeCounters[kind] else 0;
      typeCounters := typeCounters[kind := count + 1];
      x, y := ColumnX(kind), RowY(count);
    }

    method AddNode(ref: NodeRef, kind: Kind, caption: string)
      requires Valid()
      modifies this
      ensures Valid() && log == old(log) + [PushNode(ref, kind, caption)]
    {
      hide Represents;
      NodeStep(log, nodes, edges, nodeIds, edgeIds, typeCounters, ref, kind, caption);
      log := log + [PushNode(ref, kind, caption)];
      var id := Print(ref);
      hide Print;
      if id in nodeIds { return; }
      nodeIds := nodeIds + {id};
      var x, y := NextPosition(kind);
      nodes := nodes + [Node(id, x, y, caption)];
    }

    method AddEdge(source: NodeRef, target: NodeRef, relationship: string, animated: bool)
      requires Valid()
      modifies this
      ensures Valid() && log == old(log) + [PushEdge(source, target, relationship, animated)]
    {
      hide Represents;
      EdgeStep(log, nodes, edges, nodeIds, edgeIds, typeCounters, source, target, relationship, animated);
      log := log + [PushEdge(source, target, relationship, animated)];
      var id := EdgeId(Print(source), Print(target), relationship);
      if id in edgeIds { return; }
      edgeIds := edgeIds + {id};
      edges := edges + [Edge(id, Print(source), Print(target), relationship, animated)];
    }
  }

  // ----- what every run of pushes guarantees -----

  function NodeRefs(log: seq<Push>): set<NodeRef> { set p | p in log && p.PushNode? :: p.ref }

  function Prints(refs: set<NodeRef>): set<string> { set r | r in refs :: Print(r) }

  lemma {:induction false} NodeIdsPushed(log: seq<Push>)
    ensures NodeIds(Exec(log)) == Prints(NodeRefs(log))
  {
    hide Print, Apply, NodeIds, Prints, NodeRefs;
    if log != [] {
      var front, last := log[..|log| - 1], log[|log| - 1];
      NodeIdsPushed(front);
      ApplyIds(Exec(front), last);
      PrintsStep(front, last);
      assert log == front + [last];
    } else {
      NothingPushed();
    }
  }

  lemma NothingPushed()
    ensures NodeIds(Exec([])) == Prints(NodeRefs([])) == {}
  {
  }

  lemma PrintsStep(front: seq<Push>, last: Push)
    ensures Prints(NodeRefs(front + [last])) == Prints(NodeRefs(front)) + NewNodeId(last)
  {
    assert NodeRefs(front + [last]) == NodeRefs(front) + if last.PushNode? then {last.ref} else {};
  }

  lemma {:induction false} NodeIdsUnique(log: seq<Push>)
    ensures UniqueBy(Exec(log).nodes, (n: Node) => n.id)
  {
    if log != [] {
      NodeIdsUnique(log[..|log| - 1]);
    }
  }

  /** A node per reference pushed, and no id twice. */
  lemma NodesExact(log: seq<Push>)
    ensures NodeIds(Exec(log)) == set r | r in NodeRefs(log) :: Print(r)
    ensures forall r :: Print(r) in NodeIds(Exec(log)) <==> r in NodeRefs(log)
    ensures UniqueBy(Exec(log).nodes, (n: Node) => n.id)
  {
    NodeIdsPushed(log);
    NodeIdsUnique(log);
    forall r | Print(r) in NodeIds(Exec(log)) ensures r in NodeRefs(log) {
      var s :| s in NodeRefs(log) && Print(s) == Print(r);
      PrintInjective(r, s);
    }
  }

  /** The graph has exactly as many nodes as there are distinct references pushed. */
  lemma NodeCount(log: seq<Push>)
    ensures |Exec(log).nodes| == |NodeRefs(log)|
  {
    NodesExact(log);
    KeySetSize(Exec(log).nodes, (n: Node) => n.id);
    assert KeySet(Exec(log).nodes, (n: Node) => n.id) == NodeIds(Exec(log));
    PrintKeepsSize(NodeRefs(log));
  }

  lemma {:induction false} PrintKeepsSize(refs: set<NodeRef>)
    ensures |set r | r in refs :: Print(r)| == |refs|
  {
    if refs != {} {
      var r :| r in refs;
      PrintKeepsSize(refs - {r});
      var rest := set q | q in refs - {r} :: Print(q);
      if Print(r) in rest {
        var q :| q in refs - {r} && Print(q) == Print(r);
        PrintInjective(q, r);
      }
      assert (set q | q in refs :: Print(q)) == rest + {Print(r)};
    }
  }

  /** Every node stands below the earlier ones of its column. */
  ghost predicate LaidOut(nodes: seq<Node>)
  {
    forall i :: 0 <= i < |nodes| ==> nodes[i].y == RowY(CountColumn(nodes[..i], nodes[i].x))
  }

  lemma {:induction false} ExecLaidOut(log: seq<Push>)
    ensures LaidOut(Exec(log).nodes)
  {
    if log != [] {
      var front := log[..|log| - 1];
      ExecLaidOut(front);
      var g, h := Exec(front).nodes, Exec(log).nodes;
      if h != g {
        assert h[..|g|] == g;
        assert forall i :: 0 <= i < |g| ==> h[..i] == g[..i];
      }
    }
  }

  lemma {:induction false} CountGrows(nodes: seq<Node>, i: nat, j: nat, x: nat)
    requires i < j <= |nodes| && nodes[i].x == x
    ensures CountColumn(nodes[..i], x) < CountColumn(nodes[..j], x)
  {
    assert nodes[..j][..j - 1] == nodes[..j - 1];
    if j == i + 1 {
    } else {
      CountGrows(nodes, i, j - 1, x);
    }
  }

  /** The earlier nodes in this column. */
  ghost function Above(nodes: seq<Node>, k: nat, x: nat): set<nat>
    requires k <= |nodes|
  {
    set j: nat | j < k && nodes[j].x == x
  }

  lemma {:induction false} CountsAbove(nodes: seq<Node>, k: nat, x: nat)
    requires k <= |nodes|
    ensures CountColumn(nodes[..k], x) == |Above(nodes, k, x)|
  {
    if k == 0 {
      assert Above(nodes, k, x) == {};
    } else {
      CountsAbove(nodes, k - 1, x);
      assert nodes[..k][..k - 1] == nodes[..k - 1];
      assert Above(nodes, k, x) == Above(nodes, k - 1, x) + if nodes[k - 1].x == x then {k - 1} else {};
    }
  }

  /** The y coordinates of a column are 80, 200, 320, ... in order of appearance. */
  lemma ColumnsStacked(log: seq<Push>, i: nat)
    requires i < |Exec(log).nodes|
    ensures Exec(log).nodes[i].y == 80 + 120 * |Above(Exec(log).nodes, i, Exec(log).nodes[i].x)|
  {
    ExecLaidOut(log);
    CountsAbove(Exec(log).nodes, i, Exec(log).nodes[i].x);
    hide Exec;
  }

  /** No two nodes of a graph share a position. */
  lemma PositionsDistinct(log: seq<Push>)
    ensures UniqueBy(Exec(log).nodes, (n: Node) => (n.x, n.y))
  {
    ExecLaidOut(log);
    var nodes := Exec(log).nodes;
    forall i, j | 0 <= i < j < |nodes| ensures (nodes[i].x, nodes[i].y) != (nodes[j].x, nodes[j].y) {
      if nodes[i].x == nodes[j].x {
        CountGrows(nodes, i, j, nodes[i].x);
      }
    }
  }

  /** Every edge of the graph was pushed, every push is represented, and no id occurs twice. */
  lemma {:induction false} EdgesPushed(log: seq<Push>)
    ensures UniqueBy(Exec(log).edges, (e: Edge) => e.id)
    ensures forall e :: e in Exec(log).edges ==> WasPushed(log, e)
    ensures forall p :: p in log ==> NewEdgeId(p) <= EdgeIds(Exec(log))
  {
    hide Print, EdgeId, ColumnX, RowY, CountColumn;
    if log != [] {
      var front, last := log[..|log| - 1], log[|log| - 1];
      EdgesPushed(front);
      assert log == front + [last];
      ApplyIds(Exec(front), last);
      forall e | e in Exec(log).edges ensures WasPushed(log, e) {
        if e in Exec(front).edges {
          var p :| p in front && IsPushOf(p, e.source, e.target, e.relationship);
          assert p in log;
        } else {
          assert IsPushOf(last, e.source, e.target, e.relationship);
        }
      }
    }
  }

  ghost predicate WasPushed(log: seq<Push>, e: Edge)
  {
    && e.id == EdgeId(e.source, e.target, e.relationship)
    && exists p :: p in log && IsPushOf(p, e.source, e.target, e.relationship)
  }

  ghost predicate IsPushOf(p: Push, source: string, target: string, relationship: string)
  {
    p.PushEdge? && Print(p.source) == source && Print(p.target) == target && p.relationship == relationship
  }

  /** Edges whose text can be split again: no arrow in the source id, no ':' in the relationship. */
  ghost predicate PlainEdges(log: seq<Push>)
  {
    forall p :: p in log && p.PushEdge? ==> NoArrow(p.source.id) && ':' !in p.relationship
  }

  /** Two pushed edges that print alike although they differ. */
  ghost predicate Confused(p: Push, q: Push)
    requires p.PushEdge? && q.PushEdge?
  {
    p.relationship == q.relationship && Swallows(Print(p.source), Print(p.target), Print(q.source), Print(q.target))
  }

  ghost predicate SomeConfused(log: seq<Push>)
  {
    exists p, q :: p in log && q in log && p.PushEdge? && q.PushEdge? && Confused(p, q)
  }

  ghost predicate HasEdge(g: Graph, source: NodeRef, target: NodeRef, relationship: string)
  {
    exists e :: e in g.edges && e.source == Print(source) && e.target == Print(target) && e.relationship == relationship
  }

  /** Deduplication is exact: the edges of the graph are the pushed triples, each kept once. */
  lemma EdgesExact(log: seq<Push>)
    requires PlainEdges(log)
    ensures UniqueBy(Exec(log).edges, (e: Edge) => (e.source, e.target, e.relationship))
    ensures forall s, t, rel :: HasEdge(Exec(log), s, t, rel) <==>
              exists p :: p in log && p.PushEdge? && p.source == s && p.target == t && p.relationship == rel
  {
    EdgesPushed(log);
    var g := Exec(log);
    forall i, j | 0 <= i < j < |g.edges|
      ensures (g.edges[i].source, g.edges[i].target, g.edges[i].relationship) != (g.edges[j].source, g.edges[j].target,
          g.edges[j].relationship)
    {
      var a, b := g.edges[i], g.edges[j];
      assert a in g.edges && b in g.edges;
      assert ((e: Edge) => e.id)(a) != ((e: Edge) => e.id)(b);
    }
    forall s, t, rel
      ensures HasEdge(g, s, t, rel) <==>
              exists p :: p in log && p.PushEdge? && p.source == s && p.target == t && p.relationship == rel
    {
      if HasEdge(g, s, t, rel) {
        var e :| e in g.edges && e.source == Print(s) && e.target == Print(t) && e.relationship == rel;
        var p :| p in log && IsPushOf(p, e.source, e.target, e.relationship);
        PrintInjective(p.source, s);
        PrintInjective(p.target, t);
      }
      if p :| p in log && p.PushEdge? && p.source == s && p.target == t && p.relationship == rel {
        PushKept(log, p);
      }
    }
  }

  lemma PushKept(log: seq<Push>, p: Push)
    requires PlainEdges(log) && p in log && p.PushEdge?
    ensures HasEdge(Exec(log), p.source, p.target, p.relationship)
  {
    EdgesPushed(log);
    var id := EdgeId(Print(p.source), Print(p.target), p.relationship);
    assert id in NewEdgeId(p);
    var e :| e in Exec(log).edges && e.id == id;
    var q :| q in log && IsPushOf(q, e.source, e.target, e.relationship);
    PrintPlain(p.source);
    PrintPlain(q.source);
    EdgeIdInjective(e.source, e.target, e.relationship, Print(p.source), Print(p.target), p.relationship);
  }

  lemma PrintPlain(r: NodeRef)
    requires NoArrow(r.id)
    ensures NoArrow(Print(r))
  {
    PrefixTextShape(r.prefix);
    var n := |PrefixText(r.prefix)|;
    forall i | 0 <= i < |Print(r)| - 1 ensures Print(r)[i] != '-' || Print(r)[i + 1] != '>' {
      if i + 1 < n { assert Print(r)[i + 1] == PrefixText(r.prefix)[i + 1]; }
      else if n < i { assert Print(r)[i] == r.id[i - n - 1] && Print(r)[i + 1] == r.id[i - n]; }
    }
  }

  ghost predicate PlainRelationships(log: seq<Push>) { forall p :: p in log && p.PushEdge? ==> ':' !in p.relationship }

  /** For pushes whose relationships hold no ':', deduplication keeps every pushed edge exactly when no two
      of them are confused. */
  lemma DedupExactIff(log: seq<Push>)
    requires PlainRelationships(log)
    ensures (forall p :: p in log && p.PushEdge? ==> HasEdge(Exec(log), p.source, p.target, p.relationship)) <==>
              !SomeConfused(log)
  {
    if SomeConfused(log) {
      var p, q :| p in log && q in log && p.PushEdge? && q.PushEdge? && Confused(p, q);
      OneIsLost(log, p, q);
    }
    forall p | p in log && p.PushEdge?
      ensures HasEdge(Exec(log), p.source, p.target, p.relationship) || SomeConfused(log)
    {
      KeptOrConfused(log, p);
    }
  }

  lemma OneIsLost(log: seq<Push>, p: Push, q: Push)
    requires PlainRelationships(log) && p in log && q in log && p.PushEdge? && q.PushEdge? && Confused(p, q)
    ensures !HasEdge(Exec(log), p.source, p.target, p.relationship)
            || !HasEdge(Exec(log), q.source, q.target, q.relationship)
  {
    hide Exec, Print;
    EdgeIdMergeIff(Print(p.source), Print(p.target), p.relationship, Print(q.source), Print(q.target), q.relationship);
    if HasEdge(Exec(log), p.source, p.target, p.relationship)
      && HasEdge(Exec(log), q.source, q.target, q.relationship) {
      OneEdgePerId(log, p, q);
    }
  }

  lemma OneEdgePerId(log: seq<Push>, p: Push, q: Push)
    requires p.PushEdge? && HasEdge(Exec(log), p.source, p.target, p.relationship)
    requires q.PushEdge? && HasEdge(Exec(log), q.source, q.target, q.relationship)
    requires EdgeId(Print(p.source), Print(p.target), p.relationship) == EdgeId(Print(q.source), Print(q.target),
        q.relationship)
    ensures Print(p.source) == Print(q.source)
  {
    hide Exec, Print, EdgeId;
    EdgesPushed(log);
    var es := Exec(log).edges;
    var a :| a in es && a.source == Print(p.source) && a.target == Print(p.target) && a.relationship == p.relationship;
    var b :| b in es && b.source == Print(q.source) && b.target == Print(q.target) && b.relationship == q.relationship;
    assert WasPushed(log, a) && WasPushed(log, b);
    UniqueRow(es, (e: Edge) => e.id, a, b);
  }

  lemma KeptOrConfused(log: seq<Push>, p: Push)
    requires PlainRelationships(log) && p in log && p.PushEdge?
    ensures HasEdge(Exec(log), p.source, p.target, p.relationship) || SomeConfused(log)
  {
    hide Exec, Print, EdgeId;
    EdgesPushed(log);
    var id := EdgeId(Print(p.source), Print(p.target), p.relationship);
    assert id in NewEdgeId(p);
    var e :| e in Exec(log).edges && e.id == id;
    var q :| q in log && IsPushOf(q, e.source, e.target, e.relationship);
    if e.source != Print(p.source) || e.target != Print(p.target) || e.relationship != p.relationship {
      if |Print(p.source)| <= |Print(q.source)| {
        EdgeIdMergeIff(Print(p.source), Print(p.target), p.relationship, e.source, e.target, e.relationship);
        assert Confused(p, q);
      } else {
        EdgeIdMergeIff(e.source, e.target, e.relationship, Print(p.source), Print(p.target), p.relationship);
        assert Confused(q, p);
      }
    }
  }
}
