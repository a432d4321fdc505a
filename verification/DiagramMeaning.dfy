/** What the diagram says: which arrows it has, and in which subgraph each node is declared. First for any model,
    then for the rows of an inventory. */
module DiagramMeaning {
  import opened Seqs
  import opened Inventory
  import opened ArchitectureModel
  import opened GraphTheorems
  import opened ModelRows
  import opened Mermaid

  // ----- arrows of a model -----

  /** One of these resources prints as this node. */
  ghost predicate AmongMids(rs: seq<Resource>, node: string) { exists r :: r in rs && node == Mid(r.id) }

  /** An instance of the subnet prints as this node. */
  ghost predicate HostedNode(s: SubnetSummary, node: string)
  {
    exists r :: r in s.resources && r.rtype == Ec2Instance && node == Mid(r.id)
  }

  /** The root's arrows to the resources of each list. */
  ghost predicate FromRoot(b: Bucket, text: string, target: string)
  {
    || (text == "exposes" && AmongMids(b.loadBalancers, target))
    || (text == "routes" && AmongMids(b.routeTables, target))
    || (text == "protects" && AmongMids(b.securityGroups, target))
    || (text == "stores" && AmongMids(b.databases, target))
    || (text == "accelerates" && AmongMids(b.caches, target))
    || (text == "runs" && AmongMids(b.containers, target))
    || (text == "executes" && AmongMids(b.serverless, target))
  }

  ghost predicate InBucketArrow(b: Bucket, source: string, text: string, target: string)
  {
    || (source == Mid(b.id) + "_ROOT"
        && (FromRoot(b, text, target) || (text == "contains" && exists s :: s in b.subnets && target == Mid(s.id))))
    || (text == "hosts" && exists s :: s in b.subnets && source == Mid(s.id) && HostedNode(s, target))
    || (text == "targets" && AmongMids(b.loadBalancers, source)
        && exists s :: s in b.subnets && HostedNode(s, target))
  }

  ghost predicate CrossArrow(m: Model, source: string, text: string, target: string)
  {
    || (text == "DNS" && AmongMids(m.globals(Route53), source) && AmongMids(m.globals(CloudFront), target))
    || (text == "HTTP/S" && AmongMids(m.globals(CloudFront), source)
        && exists b :: b in m.vpcs && AmongMids(b.loadBalancers, target))
    || (text == "invoke" && AmongMids(m.globals(ApiGateways), source)
        && exists b :: b in m.vpcs && FunctionNode(b, target))
  }

  lemma ArrowsToMean(source: string, text: string, rs: seq<Resource>, l: Line)
    ensures l in FlatMap(rs, ArrowTo(source, text)) <==>
            l.Arrow? && l.source == source && l.text == text && AmongMids(rs, l.target)
  {
    FlatMapMember(rs, ArrowTo(source, text), l);
    hide FlatMap, Mid;
    if l.Arrow? && l.source == source && l.text == text && AmongMids(rs, l.target) {
      var r :| r in rs && l.target == Mid(r.id);
      assert l in ArrowTo(source, text)(r);
    }
  }

  lemma ProductMeans(sources: seq<Resource>, targets: seq<Resource>, text: string, l: Line)
    ensures l in FlatMap(sources, ArrowsTo(targets, text)) <==>
            l.Arrow? && l.text == text && AmongMids(sources, l.source) && AmongMids(targets, l.target)
  {
    FlatMapMember(sources, ArrowsTo(targets, text), l);
    hide FlatMap, Mid;
    forall r: Resource { ArrowsToMean(Mid(r.id), text, targets, l); }
    hide AmongMids;
    if l.Arrow? && l.text == text && AmongMids(sources, l.source) && AmongMids(targets, l.target) {
      MidOf(sources, l.source);
      var r :| r in sources && l.source == Mid(r.id);
      assert l in ArrowsTo(targets, text)(r);
    }
    if r :| r in sources && l in ArrowsTo(targets, text)(r) { IsMid(sources, r); }
  }

  lemma MidOf(rs: seq<Resource>, node: string)
    requires AmongMids(rs, node)
    ensures exists r :: r in rs && node == Mid(r.id)
  {
  }

  lemma IsMid(rs: seq<Resource>, r: Resource)
    requires r in rs
    ensures AmongMids(rs, Mid(r.id))
  {
  }

  lemma Ec2Means(ss: seq<SubnetSummary>, node: string)
    ensures AmongMids(FlatMap(ss, Ec2Of), node) <==> exists s :: s in ss && HostedNode(s, node)
    ensures forall s :: AmongMids(Ec2Of(s), node) <==> HostedNode(s, node)
  {
    hide Mid;
    forall s ensures AmongMids(Ec2Of(s), node) <==> HostedNode(s, node) {
      forall r { FlatMapMember(s.resources, OnlyEc2, r); }
      hide FlatMap;
    }
    forall r { FlatMapMember(ss, Ec2Of, r); }
    hide FlatMap, Ec2Of;
    if s :| s in ss && HostedNode(s, node) {
      var r :| r in Ec2Of(s) && node == Mid(r.id);
    }
  }

  lemma SubnetArrowsMean(b: Bucket, l: Line)
    ensures l in FlatMap(b.subnets, SubnetArrow(RootId(b.id))) <==>
            && l.Arrow? && l.source == Mid(b.id) + "_ROOT" && l.text == "contains"
            && exists s :: s in b.subnets && l.target == Mid(s.id)
  {
    FlatMapMember(b.subnets, SubnetArrow(RootId(b.id)), l);
    hide FlatMap, Mid;
    if s :| s in b.subnets && l == Arrow(RootId(b.id), "contains", Mid(s.id)) {
      assert l in SubnetArrow(RootId(b.id))(s);
    }
  }

  lemma HostArrowsMean(b: Bucket, l: Line)
    ensures l in FlatMap(b.subnets, HostArrows) <==>
            && l.Arrow? && l.text == "hosts"
            && exists s :: s in b.subnets && l.source == Mid(s.id) && HostedNode(s, l.target)
  {
    FlatMapMember(b.subnets, HostArrows, l);
    hide FlatMap, Mid, HostedNode;
    forall s: SubnetSummary
      ensures l in HostArrows(s) <==>
              l.Arrow? && l.text == "hosts" && l.source == Mid(s.id) && HostedNode(s, l.target)
    {
      ArrowsToMean(Mid(s.id), "hosts", Ec2Of(s), l);
      if l.Arrow? { Ec2Means([], l.target); }
    }
  }

  lemma BucketArrowsMean(b: Bucket, l: Line)
    ensures l in BucketArrows(b) <==> l.Arrow? && InBucketArrow(b, l.source, l.text, l.target)
  {
    var root := RootId(b.id);
    SubnetArrowsMean(b, l);
    HostArrowsMean(b, l);
    ProductMeans(b.loadBalancers, FlatMap(b.subnets, Ec2Of), "targets", l);
    if l.Arrow? { Ec2Means(b.subnets, l.target); }
    ArrowsToMean(root, "exposes", b.loadBalancers, l);
    ArrowsToMean(root, "routes", b.routeTables, l);
    ArrowsToMean(root, "protects", b.securityGroups, l);
    ArrowsToMean(root, "stores", b.databases, l);
    ArrowsToMean(root, "accelerates", b.caches, l);
    ArrowsToMean(root, "runs", b.containers, l);
    ArrowsToMean(root, "executes", b.serverless, l);
    hide FlatMap, Mid, AmongMids, HostedNode, Ec2Of;
  }

  lemma LbsPicked(m: Model, node: string)
    ensures AmongMids(FlatMap(m.vpcs, AllLbs), node) <==> exists b :: b in m.vpcs && AmongMids(b.loadBalancers, node)
  {
    forall r { FlatMapMember(m.vpcs, AllLbs, r); }
    hide FlatMap, Mid;
    if b :| b in m.vpcs && AmongMids(b.loadBalancers, node) {
      var r :| r in AllLbs(b) && node == Mid(r.id);
    }
  }

  ghost predicate FunctionNode(b: Bucket, node: string)
  {
    exists r :: r in b.serverless && r.rtype == LambdaFunction && node == Mid(r.id)
  }

  lemma FunctionsOf(b: Bucket, node: string)
    ensures AmongMids(Lambdas(b), node) <==> FunctionNode(b, node)
  {
    forall r { FlatMapMember(b.serverless, OnlyLambda, r); }
    hide FlatMap, Mid;
    if r :| r in b.serverless && r.rtype == LambdaFunction && node == Mid(r.id) { assert r in Lambdas(b); }
  }

  lemma LambdasPicked(m: Model, node: string)
    ensures AmongMids(FlatMap(m.vpcs, Lambdas), node) <==> exists b :: b in m.vpcs && FunctionNode(b, node)
  {
    forall r { FlatMapMember(m.vpcs, Lambdas, r); }
    hide FlatMap, Mid, Lambdas, FunctionNode;
    forall b: Bucket { FunctionsOf(b, node); }
    if b :| b in m.vpcs && FunctionNode(b, node) {
      var r :| r in Lambdas(b) && node == Mid(r.id);
    }
  }

  lemma CrossArrowsMean(m: Model, l: Line)
    ensures l in CrossArrows(m) <==> l.Arrow? && CrossArrow(m, l.source, l.text, l.target)
  {
    ProductMeans(m.globals(Route53), m.globals(CloudFront), "DNS", l);
    ProductMeans(m.globals(CloudFront), FlatMap(m.vpcs, AllLbs), "HTTP/S", l);
    ProductMeans(m.globals(ApiGateways), FlatMap(m.vpcs, Lambdas), "invoke", l);
    if l.Arrow? {
      LbsPicked(m, l.target);
      LambdasPicked(m, l.target);
    }
    hide FlatMap, Mid, AmongMids, FunctionNode;
  }

  /** Whatever the model, the diagram has an arrow exactly when: a bucket's root points to one of its subnets or
      resources, a subnet to an instance in it, a load balancer to an instance of its bucket, or a zone to a
      distribution, a distribution to a load balancer, an API to a function. */
  lemma ArrowsMean(m: Model, source: string, text: string, target: string)
    ensures Arrow(source, text, target) in Diagram(m) <==>
            || (exists b :: b in m.vpcs && InBucketArrow(b, source, text, target))
            || CrossArrow(m, source, text, target)
  {
    var l := Arrow(source, text, target);
    GlobalLinesNoArrows(m);
    CrossArrowsMean(m, l);
    FlatMapMember(m.vpcs, BucketLines, l);
    forall b: Bucket ensures l in BucketLines(b) <==> InBucketArrow(b, source, text, target) {
      BucketArrowsMean(b, l);
      BucketBlockNoArrows(b);
      hide BucketBlock, BucketArrows, InBucketArrow;
    }
    hide FlatMap, GlobalLines, BucketLines, CrossArrows, InBucketArrow, CrossArrow;
  }
}
