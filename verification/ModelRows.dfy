/** What the architecture model holds, read back to the rows of the inventory: each bucket, subnet and resource with
    its columns, and where it is. */
module ModelRows {
  import opened Seqs
  import opened Inventory
  import opened ArchitectureModel
  import opened GraphTheorems

  // ----- homes -----

  /** Something that names this VPC is at home there when the VPC is listed, and in the unassigned bucket otherwise. */
  ghost predicate At(account: string, d: Data, vpcId: Option<string>, home: string)
  {
    if vpcId.Some? && vpcId.value != "" && exists v :: v in d.vpcs && v.id == vpcId.value
    then home == vpcId.value
    else home == account + "-unassigned"
  }

  lemma HomeIs(account: string, d: Data, vpcId: Option<string>, home: string)
    ensures Home(account, d, vpcId) == home <==> At(account, d, vpcId, home)
  {
    if v :| v in d.vpcs && vpcId == Some(v.id) { assert v.id in VpcIds(d); }
  }

  /** Where a listener is: with unique ids, at the VPC its load balancer names, if that names one. */
  ghost predicate ListenerAt(account: string, d: Data, l: Listener, home: string)
  {
    if lb :| lb in d.loadBalancers && lb.id == l.loadBalancerId && lb.vpcId.Some? && lb.vpcId.value != ""
    then At(account, d, lb.vpcId, home)
    else home == account + "-unassigned"
  }

  lemma ListenerHome(account: string, d: Data, l: Listener, home: string)
    requires UniqueBy(d.loadBalancers, IdOfLb)
    ensures Home(account, d, LbVpc(d.loadBalancers, l.loadBalancerId)) == home <==> ListenerAt(account, d, l, home)
  {
    HomeIs(account, d, LbVpc(d.loadBalancers, l.loadBalancerId), home);
    forall a, b | a in d.loadBalancers && b in d.loadBalancers && a.id == b.id ensures a == b {
      UniqueRow(d.loadBalancers, IdOfLb, a, b);
    }
  }

  // ----- which rows are placed, and as what -----

  /** The summary of a subnet: its columns, and the instances whose subnet has its AWS id. */
  ghost predicate Summary(d: Data, s: Subnet, x: SubnetSummary)
  {
    && x.id == s.id && x.name == s.name && x.cidrBlock == s.cidrBlock
    && (x.visibility == PublicSubnet <==> s.subnetType == Public)
    && (x.visibility == UnknownSubnet <==> s.subnetType == OtherSubnet)
    && forall r :: r in x.resources <==>
         exists e :: e in d.ec2Instances && e.awsSubnetId == s.awsSubnetId && r == Resource(e.id, Ec2Instance, e.name)
  }

  ghost predicate SubnetRow(account: string, d: Data, x: SubnetSummary, home: string)
  {
    exists s :: s in d.subnets && x == Summarize(d, s) && At(account, d, Some(s.vpcId), home)
  }

  ghost predicate PlacedRow(account: string, d: Data, rows: seq<Placed>, r: Resource, home: string)
  {
    exists x :: x in rows && r.id == x.id && r.name == x.name && At(account, d, x.vpcId, home)
  }

  ghost predicate ContainerRow(account: string, d: Data, r: Resource, home: string)
  {
    match r.rtype
    case EksCluster => PlacedRow(account, d, d.eks, r, home)
    case EcsCluster =>
      home == account + "-unassigned" && exists x :: x in d.clusters && r.id == x.id && r.name == x.name
    case EcsService =>
      home == account + "-unassigned" && exists x :: x in d.services && r.id == x.id && r.name == x.name
    case EcsTaskDefinition =>
      && home == account + "-unassigned"
      && exists x, s :: x in d.taskDefs && s in d.services && s.taskDefinitionId == x.id
                        && r.id == x.id && r.name == x.name
    case _ => false
  }

  ghost predicate LoadBalancerRow(account: string, d: Data, r: Resource, home: string)
  {
    match r.rtype
    case LoadBalancerOf(kind) =>
      exists x :: x in d.loadBalancers && r == Resource(x.id, LoadBalancerOf(x.lbType), x.name)
                  && At(account, d, x.vpcId, home)
    case LoadBalancerListener =>
      exists x :: x in d.listeners && r.id == x.id && r.name == x.name && ListenerAt(account, d, x, home)
    case _ => false
  }

  /** Some row of the inventory makes this resource, and belongs into this slot at this home. */
  ghost predicate SlotRow(account: string, d: Data, slot: Slot, r: Resource, home: string)
  {
    match slot
    case SecurityGroups => r.rtype == SecurityGroup && PlacedRow(account, d, d.securityGroups, r, home)
    case RouteTables => r.rtype == RouteTableType
      && exists x :: x in d.routeTables && r.id == x.id && r.name == x.name && At(account, d, Some(x.vpcId), home)
    case LoadBalancers => LoadBalancerRow(account, d, r, home)
    case Databases => r.rtype == RdsInstance && PlacedRow(account, d, d.rds, r, home)
    case Containers => ContainerRow(account, d, r, home)
    case Serverless => r.rtype == LambdaFunction && PlacedRow(account, d, d.lambdas, r, home)
    case Caches => r.rtype == ElastiCacheCluster && PlacedRow(account, d, d.caches, r, home)
  }

  lemma SummaryOf(d: Data, s: Subnet)
    ensures Summary(d, s, Summarize(d, s))
  {
    forall r { FlatMapMember(d.ec2Instances, HostedIn(s), r); }
    hide FlatMap;
    forall r | r in Summarize(d, s).resources
      ensures exists e ::
                e in d.ec2Instances && e.awsSubnetId == s.awsSubnetId && r == Resource(e.id, Ec2Instance, e.name)
    {
      var e :| e in d.ec2Instances && r in HostedIn(s)(e);
    }
    forall e | e in d.ec2Instances && e.awsSubnetId == s.awsSubnetId
      ensures Resource(e.id, Ec2Instance, e.name) in Summarize(d, s).resources
    {
      assert Resource(e.id, Ec2Instance, e.name) in HostedIn(s)(e);
    }
  }

  /** The placements of a table, row by row. */
  lemma FromRows<R>(rows: seq<R>, f: R -> seq<Placement>, p: Placement)
    requires forall x :: |f(x)| == 1
    ensures p in FlatMap(rows, f) <==> exists x :: x in rows && p == f(x)[0]
  {
    FlatMapMember(rows, f, p);
    if x :| x in rows && p == f(x)[0] { assert p in f(x); }
  }

  ghost predicate InSlotOf(p: Placement, slot: Slot) { p.item.InSlot? && p.item.slot == slot }

  ghost predicate PlacedOf(account: string, d: Data, rows: seq<Placed>, slot: Slot, t: ResourceType, p: Placement)
  {
    InSlotOf(p, slot) && p.item.resource.rtype == t && PlacedRow(account, d, rows, p.item.resource, p.home)
  }

  lemma PlacedRows(account: string, d: Data, rows: seq<Placed>, slot: Slot, t: ResourceType, p: Placement)
    ensures p in FlatMap(rows, PlaceIn(account, d, slot, t)) <==>
            PlacedOf(account, d, rows, slot, t, p)
  {
    FromRows(rows, PlaceIn(account, d, slot, t), p);
    hide FlatMap, Home;
    forall x: Placed { HomeIs(account, d, x.vpcId, p.home); }
    hide At;
  }

  lemma RouteTableRows(account: string, d: Data, p: Placement)
    ensures p in FlatMap(d.routeTables, PlaceRouteTable(account, d)) <==>
            InSlotOf(p, RouteTables) && SlotRow(account, d, RouteTables, p.item.resource, p.home)
  {
    FromRows(d.routeTables, PlaceRouteTable(account, d), p);
    hide FlatMap, Home;
    forall x: RouteTable { HomeIs(account, d, Some(x.vpcId), p.home); }
    hide At;
  }

  lemma LoadBalancerRows(account: string, d: Data, p: Placement)
    requires UniqueBy(d.loadBalancers, IdOfLb)
    ensures p in FlatMap(d.loadBalancers, PlaceLb(account, d)) || p in FlatMap(d.listeners, PlaceListener(account, d))
            <==> InSlotOf(p, LoadBalancers) && SlotRow(account, d, LoadBalancers, p.item.resource, p.home)
  {
    FromRows(d.loadBalancers, PlaceLb(account, d), p);
    FromRows(d.listeners, PlaceListener(account, d), p);
    hide FlatMap, Home, LbVpc;
    forall x: LoadBalancer { HomeIs(account, d, x.vpcId, p.home); }
    forall x: Listener { ListenerHome(account, d, x, p.home); }
    hide At, ListenerAt, UniqueBy;
  }

  ghost predicate ContainerOf(account: string, d: Data, p: Placement, t: ResourceType)
  {
    InSlotOf(p, Containers) && p.item.resource.rtype == t && ContainerRow(account, d, p.item.resource, p.home)
  }

  lemma ClusterRows(account: string, d: Data, p: Placement)
    ensures p in FlatMap(d.clusters, PlaceCluster(account)) <==> ContainerOf(account, d, p, EcsCluster)
  {
    FromRows(d.clusters, PlaceCluster(account), p);
    hide FlatMap;
  }

  lemma ServiceRows(account: string, d: Data, p: Placement)
    ensures p in FlatMap(d.services, PlaceService(account)) <==> ContainerOf(account, d, p, EcsService)
  {
    FromRows(d.services, PlaceService(account), p);
    hide FlatMap;
  }

  lemma TaskDefRows(account: string, d: Data, p: Placement)
    ensures p in FlatMap(d.taskDefs, PlaceTaskDef(account, d)) <==> ContainerOf(account, d, p, EcsTaskDefinition)
  {
    FlatMapMember(d.taskDefs, PlaceTaskDef(account, d), p);
    hide FlatMap;
    if x, s :| x in d.taskDefs && s in d.services && s.taskDefinitionId == x.id
               && p == Placement(UnassignedId(account), InSlot(Containers, Resource(x.id, EcsTaskDefinition, x.name))) {
      assert p in PlaceTaskDef(account, d)(x);
    }
  }

  lemma SubnetRows(account: string, d: Data, p: Placement)
    ensures p in FlatMap(d.subnets, PlaceSubnet(account, d)) <==>
            p.item.InSubnets? && SubnetRow(account, d, p.item.subnet, p.home)
  {
    FromRows(d.subnets, PlaceSubnet(account, d), p);
    hide FlatMap, Home, Summarize;
    forall s: Subnet { HomeIs(account, d, Some(s.vpcId), p.home); }
    hide At;
  }

  /** A row of the inventory makes this item, and this is its home. */
  ghost predicate ItemRow(account: string, d: Data, item: Item, home: string)
  {
    match item
    case InSlot(slot, r) => SlotRow(account, d, slot, r, home)
    case InSubnets(x) => SubnetRow(account, d, x, home)
  }

  ghost predicate InTables(account: string, d: Data, p: Placement)
  {
    || p in FlatMap(d.subnets, PlaceSubnet(account, d))
    || p in FlatMap(d.securityGroups, PlaceIn(account, d, SecurityGroups, SecurityGroup))
    || p in FlatMap(d.routeTables, PlaceRouteTable(account, d))
    || (p in FlatMap(d.loadBalancers, PlaceLb(account, d)) || p in FlatMap(d.listeners, PlaceListener(account, d)))
    || p in FlatMap(d.rds, PlaceIn(account, d, Databases, RdsInstance))
    || p in FlatMap(d.clusters, PlaceCluster(account)) || p in FlatMap(d.services, PlaceService(account))
    || p in FlatMap(d.taskDefs, PlaceTaskDef(account, d))
    || p in FlatMap(d.eks, PlaceIn(account, d, Containers, EksCluster))
    || p in FlatMap(d.lambdas, PlaceIn(account, d, Serverless, LambdaFunction))
    || p in FlatMap(d.caches, PlaceIn(account, d, Caches, ElastiCacheCluster))
  }

  lemma PlacedInTables(account: string, d: Data, p: Placement)
    ensures p in Placements(account, d) <==> InTables(account, d, p)
  {
    hide FlatMap;
  }

  lemma PlacementRow(account: string, d: Data, p: Placement)
    requires UniqueBy(d.loadBalancers, IdOfLb)
    ensures p in Placements(account, d) <==> ItemRow(account, d, p.item, p.home)
  {
    PlacedInTables(account, d, p);
    SubnetRows(account, d, p);
    PlacedRows(account, d, d.securityGroups, SecurityGroups, SecurityGroup, p);
    RouteTableRows(account, d, p);
    LoadBalancerRows(account, d, p);
    PlacedRows(account, d, d.rds, Databases, RdsInstance, p);
    ClusterRows(account, d, p);
    ServiceRows(account, d, p);
    TaskDefRows(account, d, p);
    PlacedRows(account, d, d.eks, Containers, EksCluster, p);
    PlacedRows(account, d, d.lambdas, Serverless, LambdaFunction, p);
    PlacedRows(account, d, d.caches, Caches, ElastiCacheCluster, p);
    TablesAreRows(account, d, p);
  }

  /** Table by table, what is placed is what has a row. */
  lemma TablesAreRows(account: string, d: Data, p: Placement)
    requires p in FlatMap(d.subnets, PlaceSubnet(account, d)) <==>
             p.item.InSubnets? && SubnetRow(account, d, p.item.subnet, p.home)
    requires p in FlatMap(d.securityGroups, PlaceIn(account, d, SecurityGroups, SecurityGroup)) <==>
             PlacedOf(account, d, d.securityGroups, SecurityGroups, SecurityGroup, p)
    requires p in FlatMap(d.routeTables, PlaceRouteTable(account, d)) <==>
             InSlotOf(p, RouteTables) && SlotRow(account, d, RouteTables, p.item.resource, p.home)
    requires p in FlatMap(d.loadBalancers, PlaceLb(account, d)) || p in FlatMap(d.listeners, PlaceListener(account, d))
             <==> InSlotOf(p, LoadBalancers) && SlotRow(account, d, LoadBalancers, p.item.resource, p.home)
    requires p in FlatMap(d.rds, PlaceIn(account, d, Databases, RdsInstance)) <==>
             PlacedOf(account, d, d.rds, Databases, RdsInstance, p)
    requires p in FlatMap(d.clusters, PlaceCluster(account)) <==> ContainerOf(account, d, p, EcsCluster)
    requires p in FlatMap(d.services, PlaceService(account)) <==> ContainerOf(account, d, p, EcsService)
    requires p in FlatMap(d.taskDefs, PlaceTaskDef(account, d)) <==> ContainerOf(account, d, p, EcsTaskDefinition)
    requires p in FlatMap(d.eks, PlaceIn(account, d, Containers, EksCluster)) <==>
             PlacedOf(account, d, d.eks, Containers, EksCluster, p)
    requires p in FlatMap(d.lambdas, PlaceIn(account, d, Serverless, LambdaFunction)) <==>
             PlacedOf(account, d, d.lambdas, Serverless, LambdaFunction, p)
    requires p in FlatMap(d.caches, PlaceIn(account, d, Caches, ElastiCacheCluster)) <==>
             PlacedOf(account, d, d.caches, Caches, ElastiCacheCluster, p)
    ensures InTables(account, d, p) <==> ItemRow(account, d, p.item, p.home)
  {
    hide FlatMap, PlacedRow, SubnetRow, LoadBalancerRow, At;
  }

  // ----- the buckets -----

  /** A bucket has the columns of its VPC, or the fixed ones of the unassigned bucket. */
  ghost predicate BucketRow(account: string, d: Data, b: Bucket)
  {
    if v :| v in d.vpcs && v.id == b.id then b.name == v.name && b.cidrBlock == v.cidrBlock
    else b.id == account + "-unassigned" && b.name == "Unassigned Resources" && b.cidrBlock == "n/a"
  }

  lemma BucketIs(account: string, d: Data, id: string, log: seq<Placement>)
    requires UniqueBy(d.vpcs, IdOfVpc) && (id in VpcIds(d) || id == UnassignedId(account))
    ensures var b := Fill(Base(account, d, id), log); b.id == id && BucketRow(account, d, b)
  {
    BaseId(account, d, id);
    hide Fill;
    forall a, b | a in d.vpcs && b in d.vpcs && a.id == b.id ensures a == b { UniqueRow(d.vpcs, IdOfVpc, a, b); }
  }

  /** Everything in the model's buckets comes from a row, in the bucket of the row's home, with the row's columns;
      and every row that has a home is there. */
  lemma ModelHolds(account: string, d: Data, home: string, item: Item)
    requires UniqueBy(d.vpcs, IdOfVpc) && UniqueBy(d.loadBalancers, IdOfLb)
    ensures (exists b :: b in BuildModel(account, d).vpcs && b.id == home && HasItem(b, item)) <==>
            ItemRow(account, d, item, home)
    ensures forall b :: b in BuildModel(account, d).vpcs ==> BucketRow(account, d, b)
    ensures forall b, c :: b in BuildModel(account, d).vpcs && c in BuildModel(account, d).vpcs && b.id == c.id ==>
              b == c
  {
    hide Placements, Base, Fill, BuildModel, Order, VpcIds, BucketRow, ItemRow, HasItem, UniqueBy;
    var log, bs := Placements(account, d), BuildModel(account, d).vpcs;
    PlacementRow(account, d, Placement(home, item));
    forall b | b in bs
      ensures BucketRow(account, d, b) && b == Fill(Base(account, d, b.id), log)
              && (b.id == home ==> (HasItem(b, item) <==> Placement(home, item) in log))
    {
      BucketsInOrder(account, d, b);
      var id :| id in Order(account, d, log) && b == Fill(Base(account, d, id), log);
      OrderMember(account, d, log, id);
      BucketIs(account, d, id, log);
      BaseId(account, d, id);
      FillExact(Base(account, d, id), log, item);
      EmptyBucketHolds(account, d, id, item);
    }
    if Placement(home, item) in log {
      PlacementsHomed(account, d);
      OrderMember(account, d, log, home);
      var b := Fill(Base(account, d, home), log);
      BucketsInOrder(account, d, b);
      BucketIs(account, d, home, log);
      assert b in bs && HasItem(b, item);
    }
  }

  lemma GlobalRows(account: string, d: Data, k: GlobalKind, r: Resource)
    ensures r in BuildModel(account, d).globals(k) <==>
            exists g :: g in d.globals(k) && r == Resource(g.id, GlobalType(k), g.name)
  {
    hide Placements, Order;
    FlatMapMember(d.globals(k), AsGlobal(k), r);
    if g :| g in d.globals(k) && r == Resource(g.id, GlobalType(k), g.name) { assert r in AsGlobal(k)(g); }
  }
}
