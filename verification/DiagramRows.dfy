/** The diagram of an inventory: which rows stand behind each of its arrows. */
module DiagramRows {
  import opened Seqs
  import opened Inventory
  import opened ArchitectureModel
  import opened GraphTheorems
  import opened ModelRows
  import opened Mermaid
  import opened DiagramMeaning

  // ----- what the buckets hold -----

  ghost predicate UniqueHomes(d: Data) { UniqueBy(d.vpcs, IdOfVpc) && UniqueBy(d.loadBalancers, IdOfLb) }

  /** A row of this slot with this home prints as the node. */
  ghost predicate SlotNode(account: string, d: Data, slot: Slot, home: string, node: string)
  {
    exists r :: SlotRow(account, d, slot, r, home) && node == Mid(r.id)
  }

  ghost predicate SubnetNode(account: string, d: Data, s: Subnet, home: string, node: string)
  {
    s in d.subnets && At(account, d, Some(s.vpcId), home) && node == Mid(s.id)
  }

  /** An instance with the AWS id of the subnet prints as the node. */
  ghost predicate InstanceNode(d: Data, s: Subnet, node: string)
  {
    exists e :: e in d.ec2Instances && e.awsSubnetId == s.awsSubnetId && node == Mid(e.id)
  }

  lemma SummaryHosts(d: Data, s: Subnet, node: string)
    ensures HostedNode(Summarize(d, s), node) <==> InstanceNode(d, s, node)
  {
    SummaryOf(d, s);
    hide Summarize, Mid;
    var x := Summarize(d, s);
    if e :| e in d.ec2Instances && e.awsSubnetId == s.awsSubnetId && node == Mid(e.id) {
      assert Resource(e.id, Ec2Instance, e.name) in x.resources;
    }
  }

  lemma BucketHolds(account: string, d: Data, b: Bucket, item: Item)
    requires UniqueHomes(d) && b in BuildModel(account, d).vpcs
    ensures HasItem(b, item) <==> ItemRow(account, d, item, b.id)
  {
    hide BuildModel, ItemRow, HasItem;
    ModelHolds(account, d, b.id, item);
  }

  lemma SlotNodes(account: string, d: Data, b: Bucket, slot: Slot, node: string)
    requires UniqueHomes(d) && b in BuildModel(account, d).vpcs
    ensures AmongMids(b.Get(slot), node) <==> SlotNode(account, d, slot, b.id, node)
  {
    hide BuildModel, SlotRow, Mid, UniqueHomes;
    forall r: Resource ensures r in b.Get(slot) <==> SlotRow(account, d, slot, r, b.id) {
      BucketHolds(account, d, b, InSlot(slot, r));
    }
  }

  /** The subnets of a bucket are the summaries of the rows at home there. */
  lemma SubnetSummaries(account: string, d: Data, b: Bucket, x: SubnetSummary)
    requires UniqueHomes(d) && b in BuildModel(account, d).vpcs
    ensures x in b.subnets <==>
            exists s :: s in d.subnets && x == Summarize(d, s) && At(account, d, Some(s.vpcId), b.id)
  {
    hide BuildModel, At, UniqueHomes, Summarize;
    BucketHolds(account, d, b, InSubnets(x));
  }

  /** The row behind a subnet of a bucket. */
  lemma SubnetBehind(account: string, d: Data, b: Bucket, x: SubnetSummary) returns (s: Subnet)
    requires UniqueHomes(d) && b in BuildModel(account, d).vpcs && x in b.subnets
    ensures s in d.subnets && At(account, d, Some(s.vpcId), b.id) && x.id == s.id
    ensures forall node :: HostedNode(x, node) <==> InstanceNode(d, s, node)
  {
    SubnetSummaries(account, d, b, x);
    s :| s in d.subnets && x == Summarize(d, s) && At(account, d, Some(s.vpcId), b.id);
    forall node { SummaryHosts(d, s, node); }
    hide At, BuildModel, UniqueHomes, HostedNode, InstanceNode;
  }

  /** The bucket's summary of a row at home there. */
  lemma SubnetThere(account: string, d: Data, b: Bucket, s: Subnet) returns (x: SubnetSummary)
    requires UniqueHomes(d) && b in BuildModel(account, d).vpcs
    requires s in d.subnets && At(account, d, Some(s.vpcId), b.id)
    ensures x in b.subnets && x.id == s.id
    ensures forall node :: HostedNode(x, node) <==> InstanceNode(d, s, node)
  {
    x := Summarize(d, s);
    SubnetSummaries(account, d, b, x);
    forall node { SummaryHosts(d, s, node); }
    hide At, BuildModel, UniqueHomes, HostedNode, InstanceNode;
  }

  lemma BucketAt(account: string, d: Data, home: string, item: Item)
    requires UniqueHomes(d) && ItemRow(account, d, item, home)
    ensures exists b :: b in BuildModel(account, d).vpcs && b.id == home
  {
    hide BuildModel, ItemRow;
    ModelHolds(account, d, home, item);
  }

  // ----- arrows -----

  /** The arrows a home's root has to its rows. */
  ghost predicate HomeArrow(account: string, d: Data, home: string, text: string, target: string)
  {
    || (text == "contains" && exists s :: SubnetNode(account, d, s, home, target))
    || (text == "exposes" && SlotNode(account, d, LoadBalancers, home, target))
    || (text == "routes" && SlotNode(account, d, RouteTables, home, target))
    || (text == "protects" && SlotNode(account, d, SecurityGroups, home, target))
    || (text == "stores" && SlotNode(account, d, Databases, home, target))
    || (text == "accelerates" && SlotNode(account, d, Caches, home, target))
    || (text == "runs" && SlotNode(account, d, Containers, home, target))
    || (text == "executes" && SlotNode(account, d, Serverless, home, target))
  }

  /** Load balancers and listeners point to the instances in the subnets of their home. */
  ghost predicate TargetArrow(account: string, d: Data, home: string, source: string, target: string)
  {
    && SlotNode(account, d, LoadBalancers, home, source)
    && exists s :: s in d.subnets && At(account, d, Some(s.vpcId), home) && InstanceNode(d, s, target)
  }

  ghost predicate GlobalNode(d: Data, k: GlobalKind, node: string)
  {
    exists g :: g in d.globals(k) && node == Mid(g.id)
  }

  /** Rows of the inventory stand in the relation this arrow shows. */
  ghost predicate RowArrow(account: string, d: Data, source: string, text: string, target: string)
  {
    || (exists home :: source == Mid(home) + "_ROOT" && HomeArrow(account, d, home, text, target))
    || (text == "hosts" && exists s :: s in d.subnets && source == Mid(s.id) && InstanceNode(d, s, target))
    || (text == "targets" && exists home :: TargetArrow(account, d, home, source, target))
    || (text == "DNS" && GlobalNode(d, Route53, source) && GlobalNode(d, CloudFront, target))
    || (text == "HTTP/S" && GlobalNode(d, CloudFront, source)
        && exists home :: SlotNode(account, d, LoadBalancers, home, target))
    || (text == "invoke" && GlobalNode(d, ApiGateways, source)
        && exists x :: x in d.lambdas && target == Mid(x.id))
  }

  /** One bucket's arrows, by rows. */
  ghost predicate BucketRowArrow(account: string, d: Data, home: string, source: string, text: string, target: string)
  {
    || (source == Mid(home) + "_ROOT" && HomeArrow(account, d, home, text, target))
    || (text == "hosts" && exists s :: SubnetNode(account, d, s, home, source) && InstanceNode(d, s, target))
    || (text == "targets" && TargetArrow(account, d, home, source, target))
  }

  lemma RootArrowRows(account: string, d: Data, b: Bucket, text: string, target: string)
    requires UniqueHomes(d) && b in BuildModel(account, d).vpcs
    ensures FromRoot(b, text, target) || (text == "contains" && exists x :: x in b.subnets && target == Mid(x.id))
            <==> HomeArrow(account, d, b.id, text, target)
  {
    hide *;
    FieldNodes(account, d, b, target);
    ContainsRows(account, d, b, target);
    RootByRows(account, d, b, text, target);
  }

  /** Field by field, what a bucket holds is what has rows there. */
  ghost predicate FieldsAgree(account: string, d: Data, b: Bucket, node: string)
  {
    && (AmongMids(b.loadBalancers, node) <==> SlotNode(account, d, LoadBalancers, b.id, node))
    && (AmongMids(b.routeTables, node) <==> SlotNode(account, d, RouteTables, b.id, node))
    && (AmongMids(b.securityGroups, node) <==> SlotNode(account, d, SecurityGroups, b.id, node))
    && (AmongMids(b.databases, node) <==> SlotNode(account, d, Databases, b.id, node))
    && (AmongMids(b.caches, node) <==> SlotNode(account, d, Caches, b.id, node))
    && (AmongMids(b.containers, node) <==> SlotNode(account, d, Containers, b.id, node))
    && (AmongMids(b.serverless, node) <==> SlotNode(account, d, Serverless, b.id, node))
  }

  lemma FieldNodes(account: string, d: Data, b: Bucket, node: string)
    requires UniqueHomes(d) && b in BuildModel(account, d).vpcs
    ensures FieldsAgree(account, d, b, node)
  {
    hide BuildModel, SlotNode, AmongMids, UniqueHomes;
    SlotNodes(account, d, b, LoadBalancers, node);
    SlotNodes(account, d, b, RouteTables, node);
    SlotNodes(account, d, b, SecurityGroups, node);
    SlotNodes(account, d, b, Databases, node);
    SlotNodes(account, d, b, Caches, node);
    SlotNodes(account, d, b, Containers, node);
    SlotNodes(account, d, b, Serverless, node);
  }

  lemma RootByRows(account: string, d: Data, b: Bucket, text: string, target: string)
    requires FieldsAgree(account, d, b, target)
    requires (exists x :: x in b.subnets && target == Mid(x.id)) <==>
             exists s :: SubnetNode(account, d, s, b.id, target)
    ensures FromRoot(b, text, target) || (text == "contains" && exists x :: x in b.subnets && target == Mid(x.id))
            <==> HomeArrow(account, d, b.id, text, target)
  {
    hide SlotNode, SubnetNode, AmongMids, Mid;
  }

  lemma ContainsRows(account: string, d: Data, b: Bucket, target: string)
    requires UniqueHomes(d) && b in BuildModel(account, d).vpcs
    ensures (exists x :: x in b.subnets && target == Mid(x.id)) <==> exists s :: SubnetNode(account, d, s, b.id, target)
  {
    hide BuildModel, Mid, UniqueHomes, At;
    if x :| x in b.subnets && target == Mid(x.id) {
      var s := SubnetBehind(account, d, b, x);
      assert SubnetNode(account, d, s, b.id, target);
    }
    if s :| SubnetNode(account, d, s, b.id, target) { var x := SubnetThere(account, d, b, s); }
  }

  lemma HostRows(account: string, d: Data, b: Bucket, source: string, target: string)
    requires UniqueHomes(d) && b in BuildModel(account, d).vpcs
    ensures (exists x :: x in b.subnets && source == Mid(x.id) && HostedNode(x, target)) <==>
            exists s :: SubnetNode(account, d, s, b.id, source) && InstanceNode(d, s, target)
  {
    hide BuildModel, Mid, UniqueHomes, At, HostedNode, InstanceNode;
    if x :| x in b.subnets && source == Mid(x.id) && HostedNode(x, target) {
      var s := SubnetBehind(account, d, b, x);
      assert SubnetNode(account, d, s, b.id, source);
    }
    if s :| SubnetNode(account, d, s, b.id, source) && InstanceNode(d, s, target) {
      var x := SubnetThere(account, d, b, s);
    }
  }

  lemma TargetRows(account: string, d: Data, b: Bucket, source: string, target: string)
    requires UniqueHomes(d) && b in BuildModel(account, d).vpcs
    ensures AmongMids(b.loadBalancers, source) && (exists x :: x in b.subnets && HostedNode(x, target)) <==>
            TargetArrow(account, d, b.id, source, target)
  {
    FieldNodes(account, d, b, source);
    hide BuildModel, Mid, UniqueHomes, At, HostedNode, InstanceNode, SlotNode, AmongMids;
    if x :| x in b.subnets && HostedNode(x, target) { var s := SubnetBehind(account, d, b, x); }
    if s :| s in d.subnets && At(account, d, Some(s.vpcId), b.id) && InstanceNode(d, s, target) {
      var x := SubnetThere(account, d, b, s);
    }
  }

  lemma BucketRowArrows(account: string, d: Data, b: Bucket, source: string, text: string, target: string)
    requires UniqueHomes(d) && b in BuildModel(account, d).vpcs
    ensures InBucketArrow(b, source, text, target) <==> BucketRowArrow(account, d, b.id, source, text, target)
  {
    RootArrowRows(account, d, b, text, target);
    HostRows(account, d, b, source, target);
    TargetRows(account, d, b, source, target);
    hide BuildModel, FromRoot, HomeArrow, TargetArrow, SubnetNode, AmongMids, Mid, HostedNode, InstanceNode;
  }

  // ----- the whole diagram -----

  /** Every home with a row has its bucket. */
  lemma HomeHasBucket(account: string, d: Data, home: string, source: string, text: string, target: string)
    requires UniqueHomes(d) && BucketRowArrow(account, d, home, source, text, target)
    ensures exists b :: b in BuildModel(account, d).vpcs && b.id == home
  {
    hide BuildModel, SlotRow, At, Mid, InstanceNode, UniqueHomes, Summarize;
    if slot, node :| SlotNode(account, d, slot, home, node) {
      var r :| SlotRow(account, d, slot, r, home) && node == Mid(r.id);
      BucketAt(account, d, home, InSlot(slot, r));
    } else {
      var s, node :| SubnetNode(account, d, s, home, node);
      RowOfSubnet(account, d, s, home, node);
      BucketAt(account, d, home, InSubnets(Summarize(d, s)));
    }
  }

  lemma RowOfSubnet(account: string, d: Data, s: Subnet, home: string, node: string)
    requires SubnetNode(account, d, s, home, node)
    ensures ItemRow(account, d, InSubnets(Summarize(d, s)), home)
  {
    hide At, Summarize;
  }

  lemma BucketsArrowRows(account: string, d: Data, source: string, text: string, target: string)
    requires UniqueHomes(d)
    ensures (exists b :: b in BuildModel(account, d).vpcs && InBucketArrow(b, source, text, target)) <==>
            exists home :: BucketRowArrow(account, d, home, source, text, target)
  {
    hide BuildModel, InBucketArrow, BucketRowArrow, UniqueHomes;
    if b :| b in BuildModel(account, d).vpcs && InBucketArrow(b, source, text, target) {
      BucketRowArrows(account, d, b, source, text, target);
    }
    if home :| BucketRowArrow(account, d, home, source, text, target) {
      HomeHasBucket(account, d, home, source, text, target);
      var b :| b in BuildModel(account, d).vpcs && b.id == home;
      BucketRowArrows(account, d, b, source, text, target);
    }
  }

  lemma GlobalNodes(account: string, d: Data, k: GlobalKind, node: string)
    ensures AmongMids(BuildModel(account, d).globals(k), node) <==> GlobalNode(d, k, node)
  {
    hide BuildModel, Mid;
    forall r { GlobalRows(account, d, k, r); }
    if g :| g in d.globals(k) && node == Mid(g.id) {
      assert Resource(g.id, GlobalType(k), g.name) in BuildModel(account, d).globals(k);
    }
  }

  lemma BalancersAcross(account: string, d: Data, node: string)
    requires UniqueHomes(d)
    ensures (exists b :: b in BuildModel(account, d).vpcs && AmongMids(b.loadBalancers, node)) <==>
            exists home :: SlotNode(account, d, LoadBalancers, home, node)
  {
    hide BuildModel, Mid, UniqueHomes, SlotRow;
    if b :| b in BuildModel(account, d).vpcs && AmongMids(b.loadBalancers, node) {
      SlotNodes(account, d, b, LoadBalancers, node);
    }
    if home :| SlotNode(account, d, LoadBalancers, home, node) {
      var r :| SlotRow(account, d, LoadBalancers, r, home) && node == Mid(r.id);
      BucketAt(account, d, home, InSlot(LoadBalancers, r));
      var b :| b in BuildModel(account, d).vpcs && b.id == home;
      SlotNodes(account, d, b, LoadBalancers, node);
    }
  }

  lemma FunctionsAcross(account: string, d: Data, node: string)
    requires UniqueHomes(d)
    ensures (exists b :: b in BuildModel(account, d).vpcs && FunctionNode(b, node)) <==>
            exists x :: x in d.lambdas && node == Mid(x.id)
  {
    hide BuildModel, Mid, UniqueHomes, At;
    if b :| b in BuildModel(account, d).vpcs && FunctionNode(b, node) {
      var r :| r in b.serverless && r.rtype == LambdaFunction && node == Mid(r.id);
      BucketHolds(account, d, b, InSlot(Serverless, r));
    }
    if x :| x in d.lambdas && node == Mid(x.id) {
      var r, home := Resource(x.id, LambdaFunction, x.name), Home(account, d, x.vpcId);
      HomeIs(account, d, x.vpcId, home);
      assert SlotRow(account, d, Serverless, r, home);
      BucketAt(account, d, home, InSlot(Serverless, r));
      var b :| b in BuildModel(account, d).vpcs && b.id == home;
      BucketHolds(account, d, b, InSlot(Serverless, r));
      assert r in b.Get(Serverless);
    }
  }

  lemma CrossRows(account: string, d: Data, source: string, text: string, target: string)
    requires UniqueHomes(d)
    ensures CrossArrow(BuildModel(account, d), source, text, target) <==>
            || (text == "DNS" && GlobalNode(d, Route53, source) && GlobalNode(d, CloudFront, target))
            || (text == "HTTP/S" && GlobalNode(d, CloudFront, source)
                && exists home :: SlotNode(account, d, LoadBalancers, home, target))
            || (text == "invoke" && GlobalNode(d, ApiGateways, source)
                && exists x :: x in d.lambdas && target == Mid(x.id))
  {
    GlobalNodes(account, d, Route53, source);
    GlobalNodes(account, d, CloudFront, target);
    GlobalNodes(account, d, CloudFront, source);
    GlobalNodes(account, d, ApiGateways, source);
    BalancersAcross(account, d, target);
    FunctionsAcross(account, d, target);
    hide BuildModel, AmongMids, GlobalNode, SlotNode, Mid, UniqueHomes;
  }

  lemma EveryoneHome(account: string, d: Data, s: Subnet)
    ensures At(account, d, Some(s.vpcId), Home(account, d, Some(s.vpcId)))
  {
    HomeIs(account, d, Some(s.vpcId), Home(account, d, Some(s.vpcId)));
  }

  lemma RowArrowParts(account: string, d: Data, source: string, text: string, target: string)
    ensures RowArrow(account, d, source, text, target) <==>
            || (exists home :: BucketRowArrow(account, d, home, source, text, target))
            || (text == "DNS" && GlobalNode(d, Route53, source) && GlobalNode(d, CloudFront, target))
            || (text == "HTTP/S" && GlobalNode(d, CloudFront, source)
                && exists home :: SlotNode(account, d, LoadBalancers, home, target))
            || (text == "invoke" && GlobalNode(d, ApiGateways, source)
                && exists x :: x in d.lambdas && target == Mid(x.id))
  {
    hide HomeArrow, TargetArrow, GlobalNode, SlotNode, InstanceNode, Mid, At;
    if s :| text == "hosts" && s in d.subnets && source == Mid(s.id) && InstanceNode(d, s, target) {
      var home := Home(account, d, Some(s.vpcId));
      EveryoneHome(account, d, s);
      assert SubnetNode(account, d, s, home, source);
      assert BucketRowArrow(account, d, home, source, text, target);
    }
    if home :| source == Mid(home) + "_ROOT" && HomeArrow(account, d, home, text, target) {
      assert BucketRowArrow(account, d, home, source, text, target);
    }
    if home :| text == "targets" && TargetArrow(account, d, home, source, target) {
      assert BucketRowArrow(account, d, home, source, text, target);
    }
  }

  /** The diagram of an inventory has an arrow exactly when its rows stand in the relation it shows: a root points to
      what is at home there, a subnet to the instances with its AWS id, a load balancer or listener to the instances
      of its home, a zone to a distribution, a distribution to a load balancer or listener, an API to a function. */
  lemma ArrowsAreRows(account: string, d: Data, source: string, text: string, target: string)
    requires UniqueBy(d.vpcs, IdOfVpc) && UniqueBy(d.loadBalancers, IdOfLb)
    ensures Arrow(source, text, target) in Diagram(BuildModel(account, d)) <==>
            RowArrow(account, d, source, text, target)
  {
    hide BuildModel, Diagram, RowArrow, InBucketArrow, CrossArrow, BucketRowArrow, SlotNode, GlobalNode, Mid;
    ArrowsMean(BuildModel(account, d), source, text, target);
    BucketsArrowRows(account, d, source, text, target);
    CrossRows(account, d, source, text, target);
    RowArrowParts(account, d, source, text, target);
  }
}
