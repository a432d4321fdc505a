/** buildMermaidDiagram: the lines of the diagram, and why they form a well-nested program whose
    edges only mention nodes declared before them. A line is kept with the identifiers it prints and
    the text of its arrow; the caption of a node is not. */
module Mermaid {
  import opened Seqs
  import opened Inventory
  import opened ArchitectureModel

  datatype Line =
    | Header | Blank
    | Open(id: string)                  // subgraph id["..."]
    | Close                             // end
    | Declare(id: string)               // id["..."]
    | Arrow(source: string, text: string, target: string)   // source -->|text| target

  /** mid(id): `node_` followed by the id with every '-' replaced. */
  function Mid(id: string): string { "node_" + Underscored(id) }

  function Underscored(id: string): (r: string)
    ensures |r| == |id|
    ensures forall i :: 0 <= i < |id| ==> r[i] == if id[i] == '-' then '_' else id[i]
  {
    if id == "" then "" else Underscored(id[..|id| - 1]) + [if id[|id| - 1] == '-' then '_' else id[|id| - 1]]
  }

  function RootId(vpcId: string): string { Mid(vpcId) + "_ROOT" }

  // ----- specification: the lines, in order -----

  function DeclareOf(r: Resource): seq<Line> { [Declare(Mid(r.id))] }

  /** A subgraph, left out when it would be empty. */
  function Block(id: string, lines: seq<Line>): seq<Line>
  {
    if lines == [] then [] else [Open(id)] + lines + [Close]
  }

  function ResourceBlock(id: string, rs: seq<Resource>): seq<Line> { Block(id, FlatMap(rs, DeclareOf)) }

  /** The order of the blocks inside GLOBAL. */
  const BLOCK_ORDER: seq<GlobalKind> :=
    [S3Buckets, CloudFront, Route53, ApiGateways, IamRoles, CloudTrail, CloudWatch, GuardDuty, KmsKeys,
     Secrets, EcrRepositories, DynamoDb, SqsQueues, SnsTopics, WafAcls]

  function BlockName(k: GlobalKind): string
  {
    match k
    case S3Buckets => "S3"
    case CloudFront => "CF"
    case Route53 => "R53"
    case ApiGateways => "APIGW"
    case IamRoles => "IAM"
    case CloudTrail => "CT"
    case CloudWatch => "CW"
    case GuardDuty => "GD"
    case KmsKeys => "KMS"
    case Secrets => "SECRETS"
    case EcrRepositories => "ECR"
    case DynamoDb => "DYNAMO"
    case SqsQueues => "SQS"
    case SnsTopics => "SNS"
    case WafAcls => "WAF"
  }

  function GlobalBlock(m: Model): GlobalKind -> seq<Line>
  {
    (k: GlobalKind) => ResourceBlock(BlockName(k), m.globals(k))
  }

  function GlobalLines(m: Model): seq<Line>
  {
    [Open("GLOBAL")] + FlatMap(BLOCK_ORDER, GlobalBlock(m)) + [Close, Blank]
  }

  function OnlyEc2(r: Resource): seq<Resource> { if r.rtype.Ec2Instance? then [r] else [] }
  function Ec2Of(s: SubnetSummary): seq<Resource> { FlatMap(s.resources, OnlyEc2) }
  function DeclareSubnet(s: SubnetSummary): seq<Line> { [Declare(Mid(s.id))] }

  function BucketBlock(b: Bucket): seq<Line>
  {
    var v := Mid(b.id);
    [Open(v), Declare(RootId(b.id))]
    + Block(v + "_NETWORK", FlatMap(b.subnets, DeclareSubnet))
    + ResourceBlock(v + "_RT", b.routeTables)
    + ResourceBlock(v + "_SG", b.securityGroups)
    + ResourceBlock(v + "_LB", b.loadBalancers)
    + ResourceBlock(v + "_COMPUTE", FlatMap(b.subnets, Ec2Of))
    + ResourceBlock(v + "_DATA", b.databases + b.caches)
    + ResourceBlock(v + "_CONTAINERS", b.containers)
    + ResourceBlock(v + "_SERVERLESS", b.serverless)
    + [Close, Blank]
  }

  function ArrowTo(source: string, text: string): Resource -> seq<Line>
  {
    (r: Resource) => [Arrow(source, text, Mid(r.id))]
  }

  function SubnetArrow(source: string): SubnetSummary -> seq<Line>
  {
    (s: SubnetSummary) => [Arrow(source, "contains", Mid(s.id))]
  }

  function HostArrows(s: SubnetSummary): seq<Line> { FlatMap(Ec2Of(s), ArrowTo(Mid(s.id), "hosts")) }

  function ArrowsTo(targets: seq<Resource>, text: string): Resource -> seq<Line>
  {
    (r: Resource) => FlatMap(targets, ArrowTo(Mid(r.id), text))
  }

  function BucketArrows(b: Bucket): seq<Line>
  {
    var root := RootId(b.id);
    FlatMap(b.subnets, SubnetArrow(root))
    + FlatMap(b.subnets, HostArrows)
    + FlatMap(b.loadBalancers, ArrowsTo(FlatMap(b.subnets, Ec2Of), "targets"))
    + FlatMap(b.loadBalancers, ArrowTo(root, "exposes"))
    + FlatMap(b.routeTables, ArrowTo(root, "routes"))
    + FlatMap(b.securityGroups, ArrowTo(root, "protects"))
    + FlatMap(b.databases, ArrowTo(root, "stores"))
    + FlatMap(b.caches, ArrowTo(root, "accelerates"))
    + FlatMap(b.containers, ArrowTo(root, "runs"))
    + FlatMap(b.serverless, ArrowTo(root, "executes"))
  }

  function BucketLines(b: Bucket): seq<Line> { BucketBlock(b) + BucketArrows(b) }

  function AllLbs(b: Bucket): seq<Resource> { b.loadBalancers }
  function OnlyLambda(r: Resource): seq<Resource> { if r.rtype.LambdaFunction? then [r] else [] }
  function Lambdas(b: Bucket): seq<Resource> { FlatMap(b.serverless, OnlyLambda) }

  function CrossArrows(m: Model): seq<Line>
  {
    FlatMap(m.globals(Route53), ArrowsTo(m.globals(CloudFront), "DNS"))
    + FlatMap(m.globals(CloudFront), ArrowsTo(FlatMap(m.vpcs, AllLbs), "HTTP/S"))
    + FlatMap(m.globals(ApiGateways), ArrowsTo(FlatMap(m.vpcs, Lambdas), "invoke"))
  }

  function Diagram(m: Model): seq<Line>
  {
    [Header, Header, Blank] + GlobalLines(m) + FlatMap(m.vpcs, BucketLines) + CrossArrows(m)
  }

  // ----- nesting -----

  function Delta(l: Line): int { if l.Open? then 1 else if l.Close? then -1 else 0 }

  function Depth(lines: seq<Line>): int
  {
    if lines == [] then 0 else Depth(lines[..|lines| - 1]) + Delta(lines[|lines| - 1])
  }

  /** Every subgraph is closed, nothing is closed that was not open, and depth never passes max. */
  ghost predicate Nested(lines: seq<Line>, max: nat)
  {
    Depth(lines) == 0 && forall k :: 0 <= k <= |lines| ==> 0 <= Depth(lines[..k]) <= max
  }

  lemma {:induction false} DepthConcat(a: seq<Line>, b: seq<Line>)
    ensures Depth(a + b) == Depth(a) + Depth(b)
  {
    if b == [] {
      assert a + b == a;
    } else {
      DepthConcat(a, b[..|b| - 1]);
      assert (a + b)[..|a + b| - 1] == a + b[..|b| - 1];
    }
  }

  lemma NestedConcat(a: seq<Line>, b: seq<Line>, max: nat)
    requires Nested(a, max) && Nested(b, max)
    ensures Nested(a + b, max)
  {
    DepthConcat(a, b);
    forall k | 0 <= k <= |a + b| ensures 0 <= Depth((a + b)[..k]) <= max {
      if k <= |a| {
        assert (a + b)[..k] == a[..k];
      } else {
        assert (a + b)[..k] == a + b[..k - |a|];
        DepthConcat(a, b[..k - |a|]);
      }
    }
  }

  lemma NestedWrap(id: string, a: seq<Line>, max: nat)
    requires Nested(a, max)
    ensures Nested([Open(id)] + a + [Close], max + 1)
  {
    var w := [Open(id)] + a + [Close];
    DepthConcat([Open(id)], a);
    DepthConcat([Open(id)] + a, [Close]);
    forall k | 0 <= k <= |w| ensures 0 <= Depth(w[..k]) <= max + 1 {
      if 1 <= k <= |a| + 1 {
        assert w[..k] == [Open(id)] + a[..k - 1];
        DepthConcat([Open(id)], a[..k - 1]);
      } else if k == |w| {
        assert w[..k] == w;
      }
    }
  }

  ghost predicate Flat(lines: seq<Line>)
  {
    forall l :: l in lines ==> !l.Open? && !l.Close?
  }

  lemma {:induction false} FlatDepth(lines: seq<Line>)
    requires Flat(lines)
    ensures Depth(lines) == 0
  {
    if lines != [] {
      FlatDepth(lines[..|lines| - 1]);
    }
  }

  lemma FlatNested(lines: seq<Line>, max: nat)
    requires Flat(lines)
    ensures Nested(lines, max)
  {
    FlatDepth(lines);
    forall k | 0 <= k <= |lines| ensures Depth(lines[..k]) == 0 { FlatDepth(lines[..k]); }
  }

  lemma {:induction false} NestedMap<T>(s: seq<T>, f: T -> seq<Line>, max: nat)
    requires forall x :: x in s ==> Nested(f(x), max)
    ensures Nested(FlatMap(s, f), max)
  {
    if s == [] {
      FlatNested([], max);
    } else {
      NestedMap(s[..|s| - 1], f, max);
      NestedConcat(FlatMap(s[..|s| - 1], f), f(s[|s| - 1]), max);
    }
  }

  lemma FlatMapFlat<T>(s: seq<T>, f: T -> seq<Line>)
    requires forall x :: x in s ==> Flat(f(x))
    ensures Flat(FlatMap(s, f))
  {
    forall l | l in FlatMap(s, f) ensures !l.Open? && !l.Close? { FlatMapMember(s, f, l); }
  }

  lemma BlockNested(id: string, lines: seq<Line>)
    requires Flat(lines)
    ensures Nested(Block(id, lines), 1)
  {
    FlatNested(lines, 0);
    FlatNested([], 1);
    NestedWrap(id, lines, 0);
  }

  lemma ResourceBlockNested(id: string, rs: seq<Resource>)
    ensures Nested(ResourceBlock(id, rs), 1)
  {
    FlatMapFlat(rs, DeclareOf);
    BlockNested(id, FlatMap(rs, DeclareOf));
  }

  lemma GlobalLinesNested(m: Model)
    ensures Nested(GlobalLines(m), 2)
  {
    hide Nested, FlatMap, ResourceBlock;
    forall k ensures Nested(GlobalBlock(m)(k), 1) { ResourceBlockNested(BlockName(k), m.globals(k)); }
    var inner := FlatMap(BLOCK_ORDER, GlobalBlock(m));
    NestedMap(BLOCK_ORDER, GlobalBlock(m), 1);
    NestedWrap("GLOBAL", inner, 1);
    FlatNested([Blank], 2);
    NestedConcat([Open("GLOBAL")] + inner + [Close], [Blank], 2);
    assert GlobalLines(m) == [Open("GLOBAL")] + inner + [Close] + [Blank];
  }

  function BucketInner(b: Bucket): seq<Line>
  {
    var v := Mid(b.id);
    [Declare(RootId(b.id))]
    + Block(v + "_NETWORK", FlatMap(b.subnets, DeclareSubnet))
    + ResourceBlock(v + "_RT", b.routeTables)
    + ResourceBlock(v + "_SG", b.securityGroups)
    + ResourceBlock(v + "_LB", b.loadBalancers)
    + ResourceBlock(v + "_COMPUTE", FlatMap(b.subnets, Ec2Of))
    + ResourceBlock(v + "_DATA", b.databases + b.caches)
    + ResourceBlock(v + "_CONTAINERS", b.containers)
    + ResourceBlock(v + "_SERVERLESS", b.serverless)
  }

  lemma BucketBlockSplit(b: Bucket)
    ensures BucketBlock(b) == [Open(Mid(b.id))] + BucketInner(b) + [Close] + [Blank]
  {
    hide FlatMap, Block, ResourceBlock, Mid, RootId;
    assert [Open(Mid(b.id)), Declare(RootId(b.id))] == [Open(Mid(b.id))] + [Declare(RootId(b.id))];
  }

  lemma Nested9(a: seq<Line>, b: seq<Line>, c: seq<Line>, d: seq<Line>, e: seq<Line>, f: seq<Line>, g: seq<Line>,
                h: seq<Line>, i: seq<Line>)
    requires Nested(a, 1) && Nested(b, 1) && Nested(c, 1) && Nested(d, 1) && Nested(e, 1) && Nested(f, 1)
             && Nested(g, 1)
    requires Nested(h, 1) && Nested(i, 1)
    ensures Nested(a + b + c + d + e + f + g + h + i, 1)
  {
    hide Nested;
    NestedConcat(a, b, 1);
    NestedConcat(a + b, c, 1);
    NestedConcat(a + b + c, d, 1);
    NestedConcat(a + b + c + d, e, 1);
    NestedConcat(a + b + c + d + e, f, 1);
    NestedConcat(a + b + c + d + e + f, g, 1);
    NestedConcat(a + b + c + d + e + f + g, h, 1);
    NestedConcat(a + b + c + d + e + f + g + h, i, 1);
  }

  lemma BucketInnerNested(b: Bucket)
    ensures Nested(BucketInner(b), 1)
  {
    var v := Mid(b.id);
    FlatNested([Declare(RootId(b.id))], 1);
    FlatMapFlat(b.subnets, DeclareSubnet);
    BlockNested(v + "_NETWORK", FlatMap(b.subnets, DeclareSubnet));
    hide Nested, FlatMap, Block, ResourceBlock, Mid, RootId;
    ResourceBlockNested(v + "_RT", b.routeTables);
    ResourceBlockNested(v + "_SG", b.securityGroups);
    ResourceBlockNested(v + "_LB", b.loadBalancers);
    ResourceBlockNested(v + "_COMPUTE", FlatMap(b.subnets, Ec2Of));
    ResourceBlockNested(v + "_DATA", b.databases + b.caches);
    ResourceBlockNested(v + "_CONTAINERS", b.containers);
    ResourceBlockNested(v + "_SERVERLESS", b.serverless);
    Nested9([Declare(RootId(b.id))], Block(v + "_NETWORK", FlatMap(b.subnets, DeclareSubnet)),
            ResourceBlock(v + "_RT", b.routeTables), ResourceBlock(v + "_SG", b.securityGroups),
            ResourceBlock(v + "_LB", b.loadBalancers), ResourceBlock(v + "_COMPUTE", FlatMap(b.subnets, Ec2Of)),
            ResourceBlock(v + "_DATA", b.databases + b.caches), ResourceBlock(v + "_CONTAINERS", b.containers),
            ResourceBlock(v + "_SERVERLESS", b.serverless));
  }

  ghost predicate ArrowsOnly(lines: seq<Line>)
  {
    forall l :: l in lines ==> l.Arrow?
  }

  lemma ArrowsOnlyMap<T>(s: seq<T>, f: T -> seq<Line>)
    requires forall x :: x in s ==> ArrowsOnly(f(x))
    ensures ArrowsOnly(FlatMap(s, f))
  {
    forall l | l in FlatMap(s, f) ensures l.Arrow? { FlatMapMember(s, f, l); }
  }

  lemma BucketArrowsOnly(b: Bucket)
    ensures ArrowsOnly(BucketArrows(b))
  {
    hide FlatMap, Mid;
    var root := RootId(b.id);
    ArrowsOnlyMap(b.subnets, SubnetArrow(root));
    forall s ensures ArrowsOnly(HostArrows(s)) { ArrowsOnlyMap(Ec2Of(s), ArrowTo(Mid(s.id), "hosts")); }
    ArrowsOnlyMap(b.subnets, HostArrows);
    ProductArrowsOnly(b.loadBalancers, FlatMap(b.subnets, Ec2Of), "targets");
    forall rs: seq<Resource>, text ensures ArrowsOnly(FlatMap(rs, ArrowTo(root, text))) {
      ArrowsOnlyMap(rs, ArrowTo(root, text));
    }
  }

  lemma ProductArrowsOnly(sources: seq<Resource>, targets: seq<Resource>, text: string)
    ensures ArrowsOnly(FlatMap(sources, ArrowsTo(targets, text)))
  {
    hide FlatMap, Mid;
    forall r ensures ArrowsOnly(ArrowsTo(targets, text)(r)) { ArrowsOnlyMap(targets, ArrowTo(Mid(r.id), text)); }
    ArrowsOnlyMap(sources, ArrowsTo(targets, text));
  }

  lemma CrossArrowsOnly(m: Model)
    ensures ArrowsOnly(CrossArrows(m))
  {
    hide FlatMap;
    ProductArrowsOnly(m.globals(Route53), m.globals(CloudFront), "DNS");
    ProductArrowsOnly(m.globals(CloudFront), FlatMap(m.vpcs, AllLbs), "HTTP/S");
    ProductArrowsOnly(m.globals(ApiGateways), FlatMap(m.vpcs, Lambdas), "invoke");
  }

  lemma BucketLinesNested(b: Bucket)
    ensures Nested(BucketLines(b), 2)
  {
    hide Nested, BucketInner, BucketBlock, BucketArrows, Mid;
    BucketInnerNested(b);
    BucketBlockSplit(b);
    NestedWrap(Mid(b.id), BucketInner(b), 1);
    FlatNested([Blank], 2);
    NestedConcat([Open(Mid(b.id))] + BucketInner(b) + [Close], [Blank], 2);
    BucketArrowsOnly(b);
    FlatNested(BucketArrows(b), 2);
    NestedConcat(BucketBlock(b), BucketArrows(b), 2);
  }

  /** Whatever the model, the diagram is a balanced word of subgraphs nested at most two deep. */
  lemma DiagramNested(m: Model)
    ensures Nested(Diagram(m), 2)
  {
    hide Nested, BucketLines, GlobalLines, FlatMap, CrossArrows;
    FlatNested([Header, Header, Blank], 2);
    GlobalLinesNested(m);
    NestedConcat([Header, Header, Blank], GlobalLines(m), 2);
    forall b ensures Nested(BucketLines(b), 2) { BucketLinesNested(b); }
    NestedMap(m.vpcs, BucketLines, 2);
    NestedConcat([Header, Header, Blank] + GlobalLines(m), FlatMap(m.vpcs, BucketLines), 2);
    CrossArrowsOnly(m);
    FlatNested(CrossArrows(m), 2);
    NestedConcat([Header, Header, Blank] + GlobalLines(m) + FlatMap(m.vpcs, BucketLines), CrossArrows(m), 2);
  }

  // ----- declarations -----

  function Declared(lines: seq<Line>): set<string> { set l | l in lines && l.Declare? :: l.id }

  /** Both ends of every arrow are declared on an earlier line, or in pre. */
  ghost predicate ArrowsKnown(pre: set<string>, lines: seq<Line>)
  {
    forall j :: 0 <= j < |lines| && lines[j].Arrow? ==> {lines[j].source, lines[j].target} <= pre + Declared(lines[..j])
  }

  lemma KnownConcat(pre: set<string>, a: seq<Line>, b: seq<Line>)
    requires ArrowsKnown(pre, a) && ArrowsKnown(pre + Declared(a), b)
    ensures ArrowsKnown(pre, a + b)
  {
    forall j | 0 <= j < |a + b| && (a + b)[j].Arrow?
      ensures {(a + b)[j].source, (a + b)[j].target} <= pre + Declared((a + b)[..j])
    {
      if j < |a| {
        assert (a + b)[..j] == a[..j];
      } else {
        assert (a + b)[..j] == a + b[..j - |a|];
        assert Declared((a + b)[..j]) == Declared(a) + Declared(b[..j - |a|]);
      }
    }
  }

  lemma KnownWeaken(pre: set<string>, pre': set<string>, a: seq<Line>)
    requires ArrowsKnown(pre, a) && pre <= pre'
    ensures ArrowsKnown(pre', a)
  {
  }

  lemma {:induction false} KnownMap<T>(pre: set<string>, s: seq<T>, f: T -> seq<Line>)
    requires forall x :: x in s ==> ArrowsKnown(pre, f(x))
    ensures ArrowsKnown(pre, FlatMap(s, f))
  {
    if s != [] {
      var front := s[..|s| - 1];
      KnownMap(pre, front, f);
      KnownWeaken(pre, pre + Declared(FlatMap(front, f)), f(s[|s| - 1]));
      KnownConcat(pre, FlatMap(front, f), f(s[|s| - 1]));
    }
  }

  lemma DeclaredConcat(a: seq<Line>, b: seq<Line>)
    ensures Declared(a + b) == Declared(a) + Declared(b)
  {
  }

  lemma DeclaredMap<T>(s: seq<T>, f: T -> seq<Line>, id: string)
    ensures id in Declared(FlatMap(s, f)) <==> exists x :: x in s && id in Declared(f(x))
  {
    if id in Declared(FlatMap(s, f)) {
      var l :| l in FlatMap(s, f) && l.Declare? && l.id == id;
      FlatMapMember(s, f, l);
    }
    if x :| x in s && id in Declared(f(x)) {
      var l :| l in f(x) && l.Declare? && l.id == id;
      FlatMapMember(s, f, l);
    }
  }

  function MidsOf(rs: seq<Resource>): set<string> { set r | r in rs :: Mid(r.id) }
  function SubnetMids(ss: seq<SubnetSummary>): set<string> { set s | s in ss :: Mid(s.id) }

  lemma BlockDeclares(id: string, lines: seq<Line>)
    ensures Declared(Block(id, lines)) == Declared(lines)
  {
    if lines != [] {
      DeclaredConcat([Open(id)], lines);
      DeclaredConcat([Open(id)] + lines, [Close]);
    }
  }

  lemma ResourceBlockDeclares(id: string, rs: seq<Resource>)
    ensures Declared(ResourceBlock(id, rs)) == MidsOf(rs)
  {
    hide Mid, Block, FlatMap;
    BlockDeclares(id, FlatMap(rs, DeclareOf));
    forall r: Resource ensures Declared(DeclareOf(r)) == {Mid(r.id)} { assert DeclareOf(r)[0] in DeclareOf(r); }
    forall x ensures x in Declared(FlatMap(rs, DeclareOf)) <==> x in MidsOf(rs) { DeclaredMap(rs, DeclareOf, x); }
  }

  lemma SubnetsDeclare(ss: seq<SubnetSummary>)
    ensures Declared(FlatMap(ss, DeclareSubnet)) == SubnetMids(ss)
  {
    hide Mid, FlatMap;
    forall s: SubnetSummary ensures Declared(DeclareSubnet(s)) == {Mid(s.id)} {
      assert DeclareSubnet(s)[0] in DeclareSubnet(s);
    }
    forall x ensures x in Declared(FlatMap(ss, DeclareSubnet)) <==> x in SubnetMids(ss) {
      DeclaredMap(ss, DeclareSubnet, x);
    }
  }

  /** What the block of a bucket declares: the bucket's root, its subnets and all its resources. */
  function BucketIds(b: Bucket): set<string>
  {
    {RootId(b.id)} + SubnetMids(b.subnets) + MidsOf(b.routeTables) + MidsOf(b.securityGroups) + MidsOf(b.loadBalancers)
    + MidsOf(FlatMap(b.subnets, Ec2Of)) + MidsOf(b.databases + b.caches) + MidsOf(b.containers) + MidsOf(b.serverless)
  }

  lemma Declared9(a: seq<Line>, b: seq<Line>, c: seq<Line>, d: seq<Line>, e: seq<Line>, f: seq<Line>, g: seq<Line>,
                  h: seq<Line>, i: seq<Line>)
    ensures Declared(a + b + c + d + e + f + g + h + i) ==
            Declared(a) + Declared(b) + Declared(c) + Declared(d) + Declared(e) + Declared(f) + Declared(g)
              + Declared(h) + Declared(i)
  {
    hide Declared;
    DeclaredConcat(a, b);
    DeclaredConcat(a + b, c);
    DeclaredConcat(a + b + c, d);
    DeclaredConcat(a + b + c + d, e);
    DeclaredConcat(a + b + c + d + e, f);
    DeclaredConcat(a + b + c + d + e + f, g);
    DeclaredConcat(a + b + c + d + e + f + g, h);
    DeclaredConcat(a + b + c + d + e + f + g + h, i);
  }

  lemma RootDeclares(b: Bucket)
    ensures Declared([Declare(RootId(b.id))]) == {RootId(b.id)}
  {
    hide RootId;
    var l := [Declare(RootId(b.id))];
    assert l[0] in l;
  }

  lemma BucketBlockDeclares(b: Bucket)
    ensures Declared(BucketBlock(b)) == BucketIds(b)
  {
    hide Mid, RootId, FlatMap, Block, ResourceBlock, Declared, MidsOf, SubnetMids, DeclareSubnet;
    var v := Mid(b.id);
    RootDeclares(b);
    SubnetsDeclare(b.subnets);
    BlockDeclares(v + "_NETWORK", FlatMap(b.subnets, DeclareSubnet));
    ResourceBlockDeclares(v + "_RT", b.routeTables);
    ResourceBlockDeclares(v + "_SG", b.securityGroups);
    ResourceBlockDeclares(v + "_LB", b.loadBalancers);
    ResourceBlockDeclares(v + "_COMPUTE", FlatMap(b.subnets, Ec2Of));
    ResourceBlockDeclares(v + "_DATA", b.databases + b.caches);
    ResourceBlockDeclares(v + "_CONTAINERS", b.containers);
    ResourceBlockDeclares(v + "_SERVERLESS", b.serverless);
    Declared9([Declare(RootId(b.id))], Block(v + "_NETWORK", FlatMap(b.subnets, DeclareSubnet)),
              ResourceBlock(v + "_RT", b.routeTables), ResourceBlock(v + "_SG", b.securityGroups),
              ResourceBlock(v + "_LB", b.loadBalancers), ResourceBlock(v + "_COMPUTE", FlatMap(b.subnets, Ec2Of)),
              ResourceBlock(v + "_DATA", b.databases + b.caches), ResourceBlock(v + "_CONTAINERS", b.containers),
              ResourceBlock(v + "_SERVERLESS", b.serverless));
    BucketBlockSplit(b);
    DeclaredFrame(Mid(b.id), BucketInner(b));
  }

  lemma DeclaredFrame(id: string, inner: seq<Line>)
    ensures Declared([Open(id)] + inner + [Close] + [Blank]) == Declared(inner)
  {
  }

  ghost predicate EndsWithin(lines: seq<Line>, ids: set<string>)
  {
    forall l :: l in lines ==> l.Arrow? && l.source in ids && l.target in ids
  }

  lemma EndsWithinMap<T>(s: seq<T>, f: T -> seq<Line>, ids: set<string>)
    requires forall x :: x in s ==> EndsWithin(f(x), ids)
    ensures EndsWithin(FlatMap(s, f), ids)
  {
    forall l | l in FlatMap(s, f) ensures l.Arrow? && l.source in ids && l.target in ids { FlatMapMember(s, f, l); }
  }

  lemma ArrowsToWithin(source: string, text: string, rs: seq<Resource>, ids: set<string>)
    requires source in ids && MidsOf(rs) <= ids
    ensures EndsWithin(FlatMap(rs, ArrowTo(source, text)), ids)
  {
    hide Mid, FlatMap;
    forall r | r in rs ensures EndsWithin(ArrowTo(source, text)(r), ids) { assert Mid(r.id) in MidsOf(rs); }
    EndsWithinMap(rs, ArrowTo(source, text), ids);
  }

  lemma ProductWithin(sources: seq<Resource>, targets: seq<Resource>, text: string, ids: set<string>)
    requires MidsOf(sources) <= ids && MidsOf(targets) <= ids
    ensures EndsWithin(FlatMap(sources, ArrowsTo(targets, text)), ids)
  {
    hide Mid, FlatMap;
    forall r | r in sources ensures EndsWithin(ArrowsTo(targets, text)(r), ids) {
      assert Mid(r.id) in MidsOf(sources);
      ArrowsToWithin(Mid(r.id), text, targets, ids);
    }
    EndsWithinMap(sources, ArrowsTo(targets, text), ids);
  }

  lemma SubnetArrowsWithin(b: Bucket, ids: set<string>)
    requires RootId(b.id) in ids && SubnetMids(b.subnets) <= ids && MidsOf(FlatMap(b.subnets, Ec2Of)) <= ids
    ensures EndsWithin(FlatMap(b.subnets, SubnetArrow(RootId(b.id))), ids)
    ensures EndsWithin(FlatMap(b.subnets, HostArrows), ids)
  {
    hide Mid, RootId, FlatMap, Ec2Of;
    forall s | s in b.subnets
      ensures EndsWithin(SubnetArrow(RootId(b.id))(s), ids) && EndsWithin(HostArrows(s), ids)
    {
      assert Mid(s.id) in SubnetMids(b.subnets);
      forall x | x in MidsOf(Ec2Of(s)) ensures x in ids {
        var r :| r in Ec2Of(s) && x == Mid(r.id);
        FlatMapMember(b.subnets, Ec2Of, r);
        assert x in MidsOf(FlatMap(b.subnets, Ec2Of));
      }
      ArrowsToWithin(Mid(s.id), "hosts", Ec2Of(s), ids);
    }
    EndsWithinMap(b.subnets, SubnetArrow(RootId(b.id)), ids);
    EndsWithinMap(b.subnets, HostArrows, ids);
  }

  lemma BucketIdsParts(b: Bucket)
    ensures RootId(b.id) in BucketIds(b) && SubnetMids(b.subnets) <= BucketIds(b)
            && MidsOf(FlatMap(b.subnets, Ec2Of)) <= BucketIds(b)
    ensures MidsOf(b.routeTables) <= BucketIds(b) && MidsOf(b.securityGroups) <= BucketIds(b)
            && MidsOf(b.loadBalancers) <= BucketIds(b)
    ensures MidsOf(b.databases) <= BucketIds(b) && MidsOf(b.caches) <= BucketIds(b)
            && MidsOf(b.containers) <= BucketIds(b)
    ensures MidsOf(b.serverless) <= BucketIds(b)
  {
    hide RootId, Mid, FlatMap;
    assert MidsOf(b.databases + b.caches) == MidsOf(b.databases) + MidsOf(b.caches);
  }

  lemma BucketArrowsWithin(b: Bucket)
    ensures EndsWithin(BucketArrows(b), BucketIds(b))
  {
    hide RootId, Mid, FlatMap, MidsOf, SubnetMids, BucketIds;
    var ids, root := BucketIds(b), RootId(b.id);
    BucketIdsParts(b);
    SubnetArrowsWithin(b, ids);
    ProductWithin(b.loadBalancers, FlatMap(b.subnets, Ec2Of), "targets", ids);
    ArrowsToWithin(root, "exposes", b.loadBalancers, ids);
    ArrowsToWithin(root, "routes", b.routeTables, ids);
    ArrowsToWithin(root, "protects", b.securityGroups, ids);
    ArrowsToWithin(root, "stores", b.databases, ids);
    ArrowsToWithin(root, "accelerates", b.caches, ids);
    ArrowsToWithin(root, "runs", b.containers, ids);
    ArrowsToWithin(root, "executes", b.serverless, ids);
  }

  lemma WithinKnown(pre: set<string>, lines: seq<Line>, ids: set<string>)
    requires EndsWithin(lines, ids) && ids <= pre
    ensures ArrowsKnown(pre, lines) && Declared(lines) == {}
  {
    forall j | 0 <= j < |lines| ensures lines[j].Arrow? && {lines[j].source, lines[j].target} <= pre {
      assert lines[j] in lines;
    }
  }

  lemma NoArrowsKnown(pre: set<string>, lines: seq<Line>)
    requires forall l :: l in lines ==> !l.Arrow?
    ensures ArrowsKnown(pre, lines)
  {
  }

  lemma BlockNoArrows(id: string, lines: seq<Line>)
    requires forall l :: l in lines ==> l.Declare?
    ensures forall l :: l in Block(id, lines) ==> !l.Arrow?
  {
  }

  lemma ResourceBlockNoArrows(id: string, rs: seq<Resource>)
    ensures forall l :: l in ResourceBlock(id, rs) ==> !l.Arrow?
  {
    forall l | l in FlatMap(rs, DeclareOf) ensures l.Declare? { FlatMapMember(rs, DeclareOf, l); }
    BlockNoArrows(id, FlatMap(rs, DeclareOf));
  }

  lemma BucketBlockNoArrows(b: Bucket)
    ensures forall l :: l in BucketBlock(b) ==> !l.Arrow?
  {
    hide FlatMap, Mid, RootId, ResourceBlock, Block;
    var v := Mid(b.id);
    forall l | l in FlatMap(b.subnets, DeclareSubnet) ensures l.Declare? { FlatMapMember(b.subnets, DeclareSubnet, l); }
    BlockNoArrows(v + "_NETWORK", FlatMap(b.subnets, DeclareSubnet));
    ResourceBlockNoArrows(v + "_RT", b.routeTables);
    ResourceBlockNoArrows(v + "_SG", b.securityGroups);
    ResourceBlockNoArrows(v + "_LB", b.loadBalancers);
    ResourceBlockNoArrows(v + "_COMPUTE", FlatMap(b.subnets, Ec2Of));
    ResourceBlockNoArrows(v + "_DATA", b.databases + b.caches);
    ResourceBlockNoArrows(v + "_CONTAINERS", b.containers);
    ResourceBlockNoArrows(v + "_SERVERLESS", b.serverless);
  }

  lemma BucketLinesKnown(b: Bucket)
    ensures ArrowsKnown({}, BucketLines(b)) && Declared(BucketLines(b)) == BucketIds(b)
  {
    hide BucketBlock, BucketArrows, BucketIds, EndsWithin, ArrowsKnown, Declared;
    BucketBlockNoArrows(b);
    NoArrowsKnown({}, BucketBlock(b));
    BucketBlockDeclares(b);
    BucketArrowsWithin(b);
    assert {} + Declared(BucketBlock(b)) == BucketIds(b);
    WithinKnown({} + Declared(BucketBlock(b)), BucketArrows(b), BucketIds(b));
    KnownConcat({}, BucketBlock(b), BucketArrows(b));
    DeclaredConcat(BucketBlock(b), BucketArrows(b));
  }

  ghost predicate GlobalId(m: Model, id: string) { exists k :: id in MidsOf(m.globals(k)) }

  lemma GlobalLinesDeclare(m: Model, id: string)
    ensures id in Declared(GlobalLines(m)) <==> GlobalId(m, id)
  {
    hide FlatMap, MidsOf, ResourceBlock;
    var inner := FlatMap(BLOCK_ORDER, GlobalBlock(m));
    forall k ensures Declared(GlobalBlock(m)(k)) == MidsOf(m.globals(k)) {
      ResourceBlockDeclares(BlockName(k), m.globals(k));
    }
    DeclaredMap(BLOCK_ORDER, GlobalBlock(m), id);
    forall k ensures k in BLOCK_ORDER { EveryKindHasABlock(k); }
    assert GlobalLines(m) == [Open("GLOBAL")] + inner + [Close] + [Blank];
    DeclaredFrame("GLOBAL", inner);
  }

  lemma EveryKindHasABlock(k: GlobalKind)
    ensures k in BLOCK_ORDER
  {
  }

  lemma GlobalLinesNoArrows(m: Model)
    ensures forall l :: l in GlobalLines(m) ==> !l.Arrow?
  {
    hide FlatMap, ResourceBlock;
    forall l | l in FlatMap(BLOCK_ORDER, GlobalBlock(m)) ensures !l.Arrow? {
      FlatMapMember(BLOCK_ORDER, GlobalBlock(m), l);
      var k :| k in BLOCK_ORDER && l in GlobalBlock(m)(k);
      ResourceBlockNoArrows(BlockName(k), m.globals(k));
    }
  }

  ghost predicate IsBucketId(m: Model, id: string) { exists b :: b in m.vpcs && id in BucketIds(b) }

  function Intro(m: Model): seq<Line> { [Header, Header, Blank] + GlobalLines(m) + FlatMap(m.vpcs, BucketLines) }

  lemma IntroKnown(m: Model)
    ensures ArrowsKnown({}, Intro(m))
    ensures forall id :: id in Declared(Intro(m)) <==> GlobalId(m, id) || IsBucketId(m, id)
  {
    hide GlobalLines, FlatMap, BucketLines, BucketIds;
    var head := [Header, Header, Blank] + GlobalLines(m);
    GlobalLinesNoArrows(m);
    NoArrowsKnown({}, head);
    forall b ensures ArrowsKnown({}, BucketLines(b)) && Declared(BucketLines(b)) == BucketIds(b) {
      BucketLinesKnown(b);
    }
    KnownMap({}, m.vpcs, BucketLines);
    KnownWeaken({}, {} + Declared(head), FlatMap(m.vpcs, BucketLines));
    KnownConcat({}, head, FlatMap(m.vpcs, BucketLines));
    DeclaredConcat([Header, Header, Blank], GlobalLines(m));
    DeclaredConcat(head, FlatMap(m.vpcs, BucketLines));
    forall id ensures id in Declared(Intro(m)) <==> GlobalId(m, id) || IsBucketId(m, id) {
      GlobalLinesDeclare(m, id);
      DeclaredMap(m.vpcs, BucketLines, id);
    }
  }

  lemma PickedMids(m: Model, pick: Bucket -> seq<Resource>, ids: set<string>)
    requires forall b, x :: b in m.vpcs && x in pick(b) ==> x in b.loadBalancers || x in b.serverless
    requires forall id :: IsBucketId(m, id) ==> id in ids
    ensures MidsOf(FlatMap(m.vpcs, pick)) <= ids
  {
    hide Mid, FlatMap, BucketIds;
    forall id | id in MidsOf(FlatMap(m.vpcs, pick)) ensures id in ids {
      var x :| x in FlatMap(m.vpcs, pick) && id == Mid(x.id);
      FlatMapMember(m.vpcs, pick, x);
      var b :| b in m.vpcs && x in pick(b);
      BucketIdsParts(b);
      assert id in MidsOf(b.loadBalancers) || id in MidsOf(b.serverless);
      assert IsBucketId(m, id);
    }
  }

  lemma CrossWithin(m: Model, ids: set<string>)
    requires forall id :: GlobalId(m, id) || IsBucketId(m, id) ==> id in ids
    ensures EndsWithin(CrossArrows(m), ids)
  {
    hide Mid, FlatMap, BucketIds, MidsOf;
    forall b, x ensures x in Lambdas(b) ==> x in b.serverless { FlatMapMember(b.serverless, OnlyLambda, x); }
    forall k ensures MidsOf(m.globals(k)) <= ids {
      forall id | id in MidsOf(m.globals(k)) ensures id in ids { assert GlobalId(m, id); }
    }
    PickedMids(m, AllLbs, ids);
    PickedMids(m, Lambdas, ids);
    ProductWithin(m.globals(Route53), m.globals(CloudFront), "DNS", ids);
    ProductWithin(m.globals(CloudFront), FlatMap(m.vpcs, AllLbs), "HTTP/S", ids);
    ProductWithin(m.globals(ApiGateways), FlatMap(m.vpcs, Lambdas), "invoke", ids);
  }

  /** Whatever the model, every edge line mentions only nodes declared on earlier lines; and the
      declared nodes are the model's resources, subnets and bucket roots, no more and no less. */
  lemma DiagramDeclares(m: Model)
    ensures ArrowsKnown({}, Diagram(m))
    ensures forall id :: id in Declared(Diagram(m)) <==> GlobalId(m, id) || IsBucketId(m, id)
  {
    hide Intro, CrossArrows, ArrowsKnown, EndsWithin, Declared, GlobalId, IsBucketId, GlobalLines, FlatMap, BucketLines;
    IntroKnown(m);
    CrossWithin(m, Declared(Intro(m)));
    WithinKnown({} + Declared(Intro(m)), CrossArrows(m), Declared(Intro(m)));
    KnownConcat({}, Intro(m), CrossArrows(m));
    DeclaredConcat(Intro(m), CrossArrows(m));
    DiagramSplit(m);
  }

  lemma DiagramSplit(m: Model)
    ensures Diagram(m) == Intro(m) + CrossArrows(m)
  {
    hide GlobalLines, FlatMap, BucketLines, CrossArrows;
  }

  // ----- implementation -----

  /** The growing array of lines. */
  class LineBuffer {
    var lines: seq<Line>

    constructor ()
      ensures lines == []
    {
      lines := [];
    }

    method Push(l: Line)
      modifies this
      ensures lines == old(lines) + [l]
    {
      lines := lines + [l];
    }
  }

  method PushResources(out: LineBuffer, rs: seq<Resource>)
    modifies out
    ensures out.lines == old(out.lines) + FlatMap(rs, DeclareOf)
  {
    for i := 0 to |rs|
      invariant out.lines == old(out.lines) + FlatMap(rs[..i], DeclareOf)
    {
      FlatMapStep(rs, i, DeclareOf);
      out.Push(Declare(Mid(rs[i].id)));
    }
    assert rs[..|rs|] == rs;
  }

  lemma {:induction false} SomeLines(rs: seq<Resource>)
    ensures rs == [] <==> FlatMap(rs, DeclareOf) == []
  {
  }

  /** renderGlobalBlock, and the blocks of a VPC that list resources. */
  method PushBlock(out: LineBuffer, id: string, rs: seq<Resource>)
    modifies out
    ensures out.lines == old(out.lines) + ResourceBlock(id, rs)
  {
    SomeLines(rs);
    if |rs| == 0 { return; }
    out.Push(Open(id));
    PushResources(out, rs);
    out.Push(Close);
  }

  method PushSubnets(out: LineBuffer, ss: seq<SubnetSummary>)
    modifies out
    ensures out.lines == old(out.lines) + FlatMap(ss, DeclareSubnet)
  {
    for i := 0 to |ss|
      invariant out.lines == old(out.lines) + FlatMap(ss[..i], DeclareSubnet)
    {
      FlatMapStep(ss, i, DeclareSubnet);
      out.Push(Declare(Mid(ss[i].id)));
    }
    assert ss[..|ss|] == ss;
  }

  method PushSubnetBlock(out: LineBuffer, id: string, ss: seq<SubnetSummary>)
    modifies out
    ensures out.lines == old(out.lines) + Block(id, FlatMap(ss, DeclareSubnet))
  {
    if |ss| == 0 { return; }
    out.Push(Open(id));
    PushSubnets(out, ss);
    out.Push(Close);
  }

  /** DATA lists the databases, then the caches, under one condition. */
  method PushDataBlock(out: LineBuffer, id: string, b: Bucket)
    modifies out
    ensures out.lines == old(out.lines) + ResourceBlock(id, b.databases + b.caches)
  {
    FlatMapAppend(b.databases, b.caches);
    SomeLines(b.databases + b.caches);
    if |b.databases| > 0 || |b.caches| > 0 {
      out.Push(Open(id));
      PushResources(out, b.databases);
      PushResources(out, b.caches);
      out.Push(Close);
    }
  }

  lemma {:induction false} FlatMapAppend(a: seq<Resource>, b: seq<Resource>)
    ensures FlatMap(a + b, DeclareOf) == FlatMap(a, DeclareOf) + FlatMap(b, DeclareOf)
  {
    if b == [] {
      assert a + b == a;
    } else {
      FlatMapAppend(a, b[..|b| - 1]);
      assert (a + b)[..|a + b| - 1] == a + b[..|b| - 1];
    }
  }

  method PushGlobalBlocks(out: LineBuffer, m: Model)
    modifies out
    ensures out.lines == old(out.lines) + FlatMap(BLOCK_ORDER, GlobalBlock(m))
  {
    hide ResourceBlock, BlockName;
    var kinds := BLOCK_ORDER;
    for i := 0 to |kinds|
      invariant out.lines == old(out.lines) + FlatMap(kinds[..i], GlobalBlock(m))
    {
      FlatMapStep(kinds, i, GlobalBlock(m));
      PushBlock(out, BlockName(kinds[i]), m.globals(kinds[i]));
    }
    assert kinds[..|kinds|] == kinds;
  }

  method PushGlobals(out: LineBuffer, m: Model)
    modifies out
    ensures out.lines == old(out.lines) + GlobalLines(m)
  {
    hide FlatMap;
    out.Push(Open("GLOBAL"));
    PushGlobalBlocks(out, m);
    out.Push(Close);
    out.Push(Blank);
  }

  method PushBucketBlock(out: LineBuffer, b: Bucket)
    modifies out
    ensures out.lines == old(out.lines) + BucketBlock(b)
  {
    hide ResourceBlock, Block, FlatMap, Mid;
    var v := Mid(b.id);
    out.Push(Open(v));
    out.Push(Declare(RootId(b.id)));
    PushSubnetBlock(out, v + "_NETWORK", b.subnets);
    PushBlock(out, v + "_RT", b.routeTables);
    PushBlock(out, v + "_SG", b.securityGroups);
    PushBlock(out, v + "_LB", b.loadBalancers);
    PushBlock(out, v + "_COMPUTE", FlatMap(b.subnets, Ec2Of));
    PushDataBlock(out, v + "_DATA", b);
    PushBlock(out, v + "_CONTAINERS", b.containers);
    PushBlock(out, v + "_SERVERLESS", b.serverless);
    out.Push(Close);
    out.Push(Blank);
  }

  method PushArrows(out: LineBuffer, source: string, text: string, rs: seq<Resource>)
    modifies out
    ensures out.lines == old(out.lines) + FlatMap(rs, ArrowTo(source, text))
  {
    for i := 0 to |rs|
      invariant out.lines == old(out.lines) + FlatMap(rs[..i], ArrowTo(source, text))
    {
      FlatMapStep(rs, i, ArrowTo(source, text));
      out.Push(Arrow(source, text, Mid(rs[i].id)));
    }
    assert rs[..|rs|] == rs;
  }

  method PushProduct(out: LineBuffer, sources: seq<Resource>, targets: seq<Resource>, text: string)
    modifies out
    ensures out.lines == old(out.lines) + FlatMap(sources, ArrowsTo(targets, text))
  {
    for i := 0 to |sources|
      invariant out.lines == old(out.lines) + FlatMap(sources[..i], ArrowsTo(targets, text))
    {
      FlatMapStep(sources, i, ArrowsTo(targets, text));
      PushArrows(out, Mid(sources[i].id), text, targets);
    }
    assert sources[..|sources|] == sources;
  }

  method PushContains(out: LineBuffer, b: Bucket)
    modifies out
    ensures out.lines == old(out.lines) + FlatMap(b.subnets, SubnetArrow(RootId(b.id)))
  {
    hide Mid, RootId;
    var root, ss := RootId(b.id), b.subnets;
    for i := 0 to |ss|
      invariant out.lines == old(out.lines) + FlatMap(ss[..i], SubnetArrow(root))
    {
      FlatMapStep(ss, i, SubnetArrow(root));
      out.Push(Arrow(root, "contains", Mid(ss[i].id)));
    }
    assert ss[..|ss|] == ss;
  }

  method PushHosts(out: LineBuffer, ss: seq<SubnetSummary>)
    modifies out
    ensures out.lines == old(out.lines) + FlatMap(ss, HostArrows)
  {
    hide Mid, Ec2Of;
    for i := 0 to |ss|
      invariant out.lines == old(out.lines) + FlatMap(ss[..i], HostArrows)
    {
      FlatMapStep(ss, i, HostArrows);
      PushArrows(out, Mid(ss[i].id), "hosts", Ec2Of(ss[i]));
    }
    assert ss[..|ss|] == ss;
  }

  method PushBucketArrows(out: LineBuffer, b: Bucket)
    modifies out
    ensures out.lines == old(out.lines) + BucketArrows(b)
  {
    hide FlatMap, RootId;
    var root := RootId(b.id);
    PushContains(out, b);
    PushHosts(out, b.subnets);
    PushProduct(out, b.loadBalancers, FlatMap(b.subnets, Ec2Of), "targets");
    PushArrows(out, root, "exposes", b.loadBalancers);
    PushArrows(out, root, "routes", b.routeTables);
    PushArrows(out, root, "protects", b.securityGroups);
    PushArrows(out, root, "stores", b.databases);
    PushArrows(out, root, "accelerates", b.caches);
    PushArrows(out, root, "runs", b.containers);
    PushArrows(out, root, "executes", b.serverless);
  }

  method PushBuckets(out: LineBuffer, bs: seq<Bucket>)
    modifies out
    ensures out.lines == old(out.lines) + FlatMap(bs, BucketLines)
  {
    hide BucketBlock, BucketArrows;
    for i := 0 to |bs|
      invariant out.lines == old(out.lines) + FlatMap(bs[..i], BucketLines)
    {
      FlatMapStep(bs, i, BucketLines);
      PushBucketBlock(out, bs[i]);
      PushBucketArrows(out, bs[i]);
    }
    assert bs[..|bs|] == bs;
  }

  method BuildMermaidDiagram(m: Model) returns (lines: seq<Line>)
    ensures lines == Diagram(m)
  {
    hide GlobalLines, BucketLines, FlatMap;
    var out := new LineBuffer();
    out.Push(Header);
    out.Push(Header);
    out.Push(Blank);
    PushGlobals(out, m);
    PushBuckets(out, m.vpcs);
    PushProduct(out, m.globals(Route53), m.globals(CloudFront), "DNS");
    PushProduct(out, m.globals(CloudFront), FlatMap(m.vpcs, AllLbs), "HTTP/S");
    PushProduct(out, m.globals(ApiGateways), FlatMap(m.vpcs, Lambdas), "invoke");
    lines := out.lines;
    assert [] + [Header] + [Header] + [Blank] == [Header, Header, Blank];
  }
}
