/** Where the diagram declares each node: the subgraphs that are open at its line. */
module DiagramPlaces {
  import opened Seqs
  import opened Inventory
  import opened ArchitectureModel
  import opened Mermaid
  import opened DiagramMeaning

  /** The subgraphs open after these lines, outermost first, when `open` were open before them. */
  function PathAfter(open: seq<string>, lines: seq<Line>): seq<string>
  {
    if lines == [] then open
    else
      var before := PathAfter(open, lines[..|lines| - 1]);
      match lines[|lines| - 1]
      case Open(id) => before + [id]
      case Close => if before == [] then [] else before[..|before| - 1]
      case _ => before
  }

  /** Some line declares the node, inside exactly these subgraphs. */
  ghost predicate Shown(open: seq<string>, lines: seq<Line>, path: seq<string>, node: string)
  {
    exists k :: 0 <= k < |lines| && lines[k] == Declare(node) && PathAfter(open, lines[..k]) == path
  }

  /** The lines close whatever they open, and nothing else. */
  ghost predicate Closed(lines: seq<Line>) { forall open :: PathAfter(open, lines) == open }

  lemma {:induction false} PathConcat(open: seq<string>, a: seq<Line>, b: seq<Line>)
    ensures PathAfter(open, a + b) == PathAfter(PathAfter(open, a), b)
  {
    if b == [] {
      assert a + b == a;
    } else {
      assert (a + b)[..|a + b| - 1] == a + b[..|b| - 1];
      PathConcat(open, a, b[..|b| - 1]);
    }
  }

  lemma ShownConcat(open: seq<string>, a: seq<Line>, b: seq<Line>, path: seq<string>, node: string)
    ensures Shown(open, a + b, path, node) <==>
            Shown(open, a, path, node) || Shown(PathAfter(open, a), b, path, node)
  {
    if k :| 0 <= k < |a| && a[k] == Declare(node) && PathAfter(open, a[..k]) == path {
      assert (a + b)[..k] == a[..k] && (a + b)[k] == a[k];
    }
    if k :| 0 <= k < |b| && b[k] == Declare(node) && PathAfter(PathAfter(open, a), b[..k]) == path {
      assert (a + b)[..|a| + k] == a + b[..k] && (a + b)[|a| + k] == b[k];
      PathConcat(open, a, b[..k]);
    }
    if k :| 0 <= k < |a + b| && (a + b)[k] == Declare(node) && PathAfter(open, (a + b)[..k]) == path {
      if k < |a| {
        assert (a + b)[..k] == a[..k];
      } else {
        assert (a + b)[..k] == a + b[..k - |a|] && b[k - |a|] == Declare(node);
        PathConcat(open, a, b[..k - |a|]);
      }
    }
  }

  lemma ClosedConcat(a: seq<Line>, b: seq<Line>)
    requires Closed(a) && Closed(b)
    ensures Closed(a + b)
  {
    forall open ensures PathAfter(open, a + b) == open { PathConcat(open, a, b); }
  }

  /** Shown in one of two closed parts. */
  lemma ShownEither(open: seq<string>, a: seq<Line>, b: seq<Line>, path: seq<string>, node: string)
    requires Closed(a) && Closed(b)
    ensures Closed(a + b)
    ensures Shown(open, a + b, path, node) <==> Shown(open, a, path, node) || Shown(open, b, path, node)
  {
    ClosedConcat(a, b);
    ShownConcat(open, a, b, path, node);
    assert PathAfter(open, a) == open;
    hide Shown;
  }

  lemma {:induction false} ShownInMap<T>(open: seq<string>, s: seq<T>, f: T -> seq<Line>, path: seq<string>,
                                         node: string)
    requires forall x :: x in s ==> Closed(f(x))
    ensures Closed(FlatMap(s, f))
    ensures Shown(open, FlatMap(s, f), path, node) <==> exists x :: x in s && Shown(open, f(x), path, node)
  {
    hide Shown, Closed;
    if s == [] {
      NothingShown(open, path, node);
    } else {
      var front, last := s[..|s| - 1], s[|s| - 1];
      assert s == front + [last];
      ShownInMap(open, front, f, path, node);
      ShownEither(open, FlatMap(front, f), f(last), path, node);
    }
  }

  lemma NothingShown(open: seq<string>, path: seq<string>, node: string)
    ensures Closed([]) && !Shown(open, [], path, node)
  {
  }

  ghost predicate Plain(lines: seq<Line>) { forall l :: l in lines ==> !l.Open? && !l.Close? }

  lemma {:induction false} PlainPath(open: seq<string>, lines: seq<Line>)
    requires Plain(lines)
    ensures PathAfter(open, lines) == open
  {
    if lines != [] {
      assert lines[|lines| - 1] in lines;
      PlainPath(open, lines[..|lines| - 1]);
    }
  }

  /** Lines that open nothing show what they declare where they stand. */
  lemma PlainShown(open: seq<string>, lines: seq<Line>, path: seq<string>, node: string)
    requires Plain(lines)
    ensures Closed(lines)
    ensures Shown(open, lines, path, node) <==> path == open && Declare(node) in lines
  {
    forall o { PlainPath(o, lines); }
    forall k | 0 <= k <= |lines| ensures PathAfter(open, lines[..k]) == open { PlainPath(open, lines[..k]); }
    if Declare(node) in lines {
      var k :| 0 <= k < |lines| && lines[k] == Declare(node);
      assert PathAfter(open, lines[..k]) == open;
    }
  }

  /** A subgraph around closed lines shows theirs one level deeper. */
  lemma ShownInside(open: seq<string>, id: string, inner: seq<Line>, path: seq<string>, node: string)
    requires Closed(inner)
    ensures Closed([Open(id)] + inner + [Close])
    ensures Shown(open, [Open(id)] + inner + [Close], path, node) <==> Shown(open + [id], inner, path, node)
  {
    var all := [Open(id)] + inner + [Close];
    forall o ensures PathAfter(o, all) == o && PathAfter(o, [Open(id)]) == o + [id] {
      OpenedPath(o, id);
      PathConcat(o, [Open(id)], inner);
      PathConcat(o, [Open(id)] + inner, [Close]);
      ClosedPath(o + [id]);
    }
    ShownConcat(open, [Open(id)], inner, path, node);
    ShownConcat(open, [Open(id)] + inner, [Close], path, node);
    OneLine(open, Open(id), path, node);
    OneLine(PathAfter(open, [Open(id)] + inner), Close, path, node);
    hide Shown;
  }

  lemma OpenedPath(open: seq<string>, id: string)
    ensures PathAfter(open, [Open(id)]) == open + [id]
  {
    assert [Open(id)][..0] == [];
  }

  lemma ClosedPath(open: seq<string>)
    requires open != []
    ensures PathAfter(open, [Close]) == open[..|open| - 1]
  {
    assert [Close][..0] == [];
  }

  lemma OneLine(open: seq<string>, l: Line, path: seq<string>, node: string)
    ensures Shown(open, [l], path, node) <==> l == Declare(node) && path == open
  {
    assert [l][..0] == [];
    if l == Declare(node) && path == open { assert [l][0] == Declare(node) && PathAfter(open, [l][..0]) == path; }
  }

  // ----- blocks -----

  lemma BlockShows(open: seq<string>, id: string, lines: seq<Line>, path: seq<string>, node: string)
    requires Plain(lines)
    ensures Closed(Block(id, lines))
    ensures Shown(open, Block(id, lines), path, node) <==> path == open + [id] && Declare(node) in lines
  {
    PlainShown(open + [id], lines, path, node);
    if lines == [] { NothingShown(open, path, node); } else { ShownInside(open, id, lines, path, node); }
    hide Shown, Closed;
  }

  lemma DeclaredMids(rs: seq<Resource>, node: string)
    ensures Plain(FlatMap(rs, DeclareOf))
    ensures Declare(node) in FlatMap(rs, DeclareOf) <==> AmongMids(rs, node)
  {
    forall l { FlatMapMember(rs, DeclareOf, l); }
    hide FlatMap, Mid;
    if r :| r in rs && node == Mid(r.id) { assert Declare(node) in DeclareOf(r); }
  }

  lemma ResourceBlockShows(open: seq<string>, id: string, rs: seq<Resource>, path: seq<string>, node: string)
    ensures Closed(ResourceBlock(id, rs))
    ensures Shown(open, ResourceBlock(id, rs), path, node) <==> path == open + [id] && AmongMids(rs, node)
  {
    DeclaredMids(rs, node);
    BlockShows(open, id, FlatMap(rs, DeclareOf), path, node);
  }

  lemma SubnetBlockShows(open: seq<string>, id: string, ss: seq<SubnetSummary>, path: seq<string>, node: string)
    ensures Closed(Block(id, FlatMap(ss, DeclareSubnet)))
    ensures Shown(open, Block(id, FlatMap(ss, DeclareSubnet)), path, node) <==>
            path == open + [id] && exists s :: s in ss && node == Mid(s.id)
  {
    forall l { FlatMapMember(ss, DeclareSubnet, l); }
    hide FlatMap, Mid;
    if s :| s in ss && node == Mid(s.id) { assert Declare(node) in DeclareSubnet(s); }
    BlockShows(open, id, FlatMap(ss, DeclareSubnet), path, node);
  }

  /** Where a bucket declares a node: its root directly, everything else in the block of its kind. */
  ghost predicate InBucketPlace(b: Bucket, path: seq<string>, node: string)
  {
    var v := Mid(b.id);
    || (path == [v] && node == v + "_ROOT")
    || (path == [v, v + "_NETWORK"] && exists s :: s in b.subnets && node == Mid(s.id))
    || (path == [v, v + "_RT"] && AmongMids(b.routeTables, node))
    || (path == [v, v + "_SG"] && AmongMids(b.securityGroups, node))
    || (path == [v, v + "_LB"] && AmongMids(b.loadBalancers, node))
    || (path == [v, v + "_COMPUTE"] && exists s :: s in b.subnets && HostedNode(s, node))
    || (path == [v, v + "_DATA"] && (AmongMids(b.databases, node) || AmongMids(b.caches, node)))
    || (path == [v, v + "_CONTAINERS"] && AmongMids(b.containers, node))
    || (path == [v, v + "_SERVERLESS"] && AmongMids(b.serverless, node))
  }

  ghost predicate InnerPlace(b: Bucket, open: seq<string>, path: seq<string>, node: string)
  {
    var v := Mid(b.id);
    || (path == open && node == RootId(b.id))
    || (path == open + [v + "_NETWORK"] && exists s :: s in b.subnets && node == Mid(s.id))
    || (path == open + [v + "_RT"] && AmongMids(b.routeTables, node))
    || (path == open + [v + "_SG"] && AmongMids(b.securityGroups, node))
    || (path == open + [v + "_LB"] && AmongMids(b.loadBalancers, node))
    || (path == open + [v + "_COMPUTE"] && AmongMids(FlatMap(b.subnets, Ec2Of), node))
    || (path == open + [v + "_DATA"] && AmongMids(b.databases + b.caches, node))
    || (path == open + [v + "_CONTAINERS"] && AmongMids(b.containers, node))
    || (path == open + [v + "_SERVERLESS"] && AmongMids(b.serverless, node))
  }

  lemma InnerShows(open: seq<string>, b: Bucket, path: seq<string>, node: string)
    ensures Closed(BucketInner(b))
    ensures Shown(open, BucketInner(b), path, node) <==> InnerPlace(b, open, path, node)
  {
    var v := Mid(b.id);
    var l0, l1 := [Declare(RootId(b.id))], Block(v + "_NETWORK", FlatMap(b.subnets, DeclareSubnet));
    var l2, l3 := ResourceBlock(v + "_RT", b.routeTables), ResourceBlock(v + "_SG", b.securityGroups);
    var l4, l5 := ResourceBlock(v + "_LB", b.loadBalancers), ResourceBlock(v + "_COMPUTE", FlatMap(b.subnets, Ec2Of));
    var l6, l7 := ResourceBlock(v + "_DATA", b.databases + b.caches), ResourceBlock(v + "_CONTAINERS", b.containers);
    var l8 := ResourceBlock(v + "_SERVERLESS", b.serverless);
    assert BucketInner(b) == l0 + l1 + l2 + l3 + l4 + l5 + l6 + l7 + l8;
    PlainShown(open, l0, path, node);
    SubnetBlockShows(open, v + "_NETWORK", b.subnets, path, node);
    ResourceBlockShows(open, v + "_RT", b.routeTables, path, node);
    ResourceBlockShows(open, v + "_SG", b.securityGroups, path, node);
    ResourceBlockShows(open, v + "_LB", b.loadBalancers, path, node);
    ResourceBlockShows(open, v + "_COMPUTE", FlatMap(b.subnets, Ec2Of), path, node);
    ResourceBlockShows(open, v + "_DATA", b.databases + b.caches, path, node);
    ResourceBlockShows(open, v + "_CONTAINERS", b.containers, path, node);
    ResourceBlockShows(open, v + "_SERVERLESS", b.serverless, path, node);
    hide Closed, Shown, FlatMap, Block, ResourceBlock, Mid, RootId, AmongMids, BucketInner, Ec2Of;
    ShownEither(open, l0, l1, path, node);
    ShownEither(open, l0 + l1, l2, path, node);
    ShownEither(open, l0 + l1 + l2, l3, path, node);
    ShownEither(open, l0 + l1 + l2 + l3, l4, path, node);
    ShownEither(open, l0 + l1 + l2 + l3 + l4, l5, path, node);
    ShownEither(open, l0 + l1 + l2 + l3 + l4 + l5, l6, path, node);
    ShownEither(open, l0 + l1 + l2 + l3 + l4 + l5 + l6, l7, path, node);
    ShownEither(open, l0 + l1 + l2 + l3 + l4 + l5 + l6 + l7, l8, path, node);
  }

  lemma InnerIsPlace(b: Bucket, path: seq<string>, node: string)
    ensures InnerPlace(b, [Mid(b.id)], path, node) <==> InBucketPlace(b, path, node)
  {
    Ec2Means(b.subnets, node);
    DataMids(b, node);
    hide FlatMap, Mid, AmongMids, HostedNode, Ec2Of;
    var v := Mid(b.id);
    assert forall x: string :: [v] + [x] == [v, x];
  }

  lemma BucketBlockShows(b: Bucket, path: seq<string>, node: string)
    ensures Closed(BucketBlock(b))
    ensures Shown([], BucketBlock(b), path, node) <==> InBucketPlace(b, path, node)
  {
    hide *;
    var v := Mid(b.id);
    InnerShows([v], b, path, node);
    InnerIsPlace(b, path, node);
    ShownInside([], v, BucketInner(b), path, node);
    assert [] + [v] == [v];
    BucketBlockSplit(b);
    BlankShows(path, node);
    ShownEither([], [Open(v)] + BucketInner(b) + [Close], [Blank], path, node);
  }

  lemma BlankShows(path: seq<string>, node: string)
    ensures Closed([Blank]) && !Shown([], [Blank], path, node)
  {
    PlainShown([], [Blank], path, node);
  }

  lemma ArrowsShow(b: Bucket, path: seq<string>, node: string)
    ensures Closed(BucketArrows(b)) && !Shown([], BucketArrows(b), path, node)
  {
    BucketArrowsOnly(b);
    hide BucketArrows;
    PlainShown([], BucketArrows(b), path, node);
  }

  lemma BucketShows(b: Bucket, path: seq<string>, node: string)
    ensures Closed(BucketLines(b))
    ensures Shown([], BucketLines(b), path, node) <==> InBucketPlace(b, path, node)
  {
    BucketBlockShows(b, path, node);
    ArrowsShow(b, path, node);
    hide Closed, Shown, BucketBlock, BucketArrows, InBucketPlace;
    ShownEither([], BucketBlock(b), BucketArrows(b), path, node);
  }

  lemma DataMids(b: Bucket, node: string)
    ensures AmongMids(b.databases + b.caches, node) <==> AmongMids(b.databases, node) || AmongMids(b.caches, node)
  {
    hide Mid;
    if r :| r in b.databases && node == Mid(r.id) { assert r in b.databases + b.caches; }
    if r :| r in b.caches && node == Mid(r.id) { assert r in b.databases + b.caches; }
  }

  // ----- the whole diagram -----

  /** The subgraph of GLOBAL in which a kind is declared. */
  function Title(k: GlobalKind): string
  {
    match k
    case S3Buckets => "S3"
    case CloudFront => "CF"
    case Route53 => "R53"
    case ApiGateways => "APIGW"
    case IamRoles => "IAM"
    case CloudTrail => "CT"
    case CloudWatch => "CW"
    case GuardDuty => "GD"
    case KmsKeys => "KMS"
    case Secrets => "SECRETS"
    case EcrRepositories => "ECR"
    case DynamoDb => "DYNAMO"
    case SqsQueues => "SQS"
    case SnsTopics => "SNS"
    case WafAcls => "WAF"
  }

  lemma TitleIs(k: GlobalKind)
    ensures BlockName(k) == Title(k)
  {
  }

  ghost predicate InGlobalPlace(m: Model, path: seq<string>, node: string)
  {
    exists k :: path == ["GLOBAL", Title(k)] && AmongMids(m.globals(k), node)
  }

  lemma TitledBlocks(m: Model, path: seq<string>, node: string)
    ensures (exists k :: k in BLOCK_ORDER && path == ["GLOBAL", BlockName(k)] && AmongMids(m.globals(k), node)) <==>
              InGlobalPlace(m, path, node)
  {
    hide AmongMids, BlockName, Title, BLOCK_ORDER;
    forall k ensures k in BLOCK_ORDER { EveryKindHasABlock(k); }
    forall k: GlobalKind { TitleIs(k); }
  }

  lemma GlobalsShow(m: Model, path: seq<string>, node: string)
    ensures Closed(GlobalLines(m))
    ensures Shown([], GlobalLines(m), path, node) <==> InGlobalPlace(m, path, node)
  {
    hide FlatMap, ResourceBlock, AmongMids, BlockName, BLOCK_ORDER;
    var inner := FlatMap(BLOCK_ORDER, GlobalBlock(m));
    forall k: GlobalKind
      ensures Closed(GlobalBlock(m)(k))
      ensures Shown(["GLOBAL"], GlobalBlock(m)(k), path, node) <==>
              path == ["GLOBAL", BlockName(k)] && AmongMids(m.globals(k), node)
    {
      ResourceBlockShows(["GLOBAL"], BlockName(k), m.globals(k), path, node);
      assert ["GLOBAL"] + [BlockName(k)] == ["GLOBAL", BlockName(k)];
    }
    ShownInMap(["GLOBAL"], BLOCK_ORDER, GlobalBlock(m), path, node);
    assert [] + ["GLOBAL"] == ["GLOBAL"];
    ShownInside([], "GLOBAL", inner, path, node);
    PlainShown([], [Blank], path, node);
    ShownEither([], [Open("GLOBAL")] + inner + [Close], [Blank], path, node);
    assert GlobalLines(m) == [Open("GLOBAL")] + inner + [Close] + [Blank];
    hide Closed, Shown;
    TitledBlocks(m, path, node);
  }

  /** Whatever the model, a node is declared inside exactly these subgraphs: an account-wide resource in the block of
      its kind, a root in its VPC, and a bucket's subnets, instances and resources in the block of their kind in
      the VPC. */
  lemma PlacesMean(m: Model, path: seq<string>, node: string)
    ensures Shown([], Diagram(m), path, node) <==>
            InGlobalPlace(m, path, node) || exists b :: b in m.vpcs && InBucketPlace(b, path, node)
  {
    var head := [Header, Header, Blank];
    PlainShown([], head, path, node);
    GlobalsShow(m, path, node);
    forall b: Bucket
      ensures Closed(BucketLines(b)) && (Shown([], BucketLines(b), path, node) <==> InBucketPlace(b, path, node))
    {
      BucketShows(b, path, node);
    }
    CrossArrowsOnly(m);
    PlainShown([], CrossArrows(m), path, node);
    hide Closed, Shown, FlatMap, GlobalLines, BucketLines, CrossArrows, InBucketPlace, InGlobalPlace;
    ShownInMap([], m.vpcs, BucketLines, path, node);
    ShownEither([], head, GlobalLines(m), path, node);
    ShownEither([], head + GlobalLines(m), FlatMap(m.vpcs, BucketLines), path, node);
    ShownEither([], head + GlobalLines(m) + FlatMap(m.vpcs, BucketLines), CrossArrows(m), path, node);
  }
}
