/** The edges a bucket contributes, traced back through its placements to inventory rows; and with them the
    meaning of every edge of the graph. */
module GraphContainment {
  import opened Seqs
  import opened Inventory
  import opened ArchitectureModel
  import opened FlowGraph
  import opened GraphCompiler
  import opened GraphTheorems
  import opened GraphProperties
  import opened GraphEdges

  // ----- one bucket -----

  function SlotRel(slot: Slot): string
  {
    match slot
    case SecurityGroups => "has-security-group"
    case RouteTables => "has-route-table"
    case LoadBalancers => "contains-load-balancer"
    case Databases => "contains-database"
    case Containers => "contains-workload"
    case Serverless => "contains-serverless"
    case Caches => "contains-cache"
  }

  function ListenerRow(d: Data, id: string): Option<Listener> { FindFirst(d.listeners, (l: Listener) => l.id == id) }

  ghost predicate SlotSays(d: Data, home: string, slot: Slot, r: Resource, e: Link)
  {
    if slot == LoadBalancers && r.rtype.LoadBalancerListener? then
      ListenerRow(d, r.id).Some? && e == Link(LbNode(ListenerRow(d, r.id).value.loadBalancerId), ResourceRef(r),
                                              "has-listener")
    else e == Link(VpcRef(home), ResourceRef(r), SlotRel(slot))
  }

  ghost predicate SubnetSays(d: Data, home: string, s: SubnetSummary, e: Link)
  {
    || e == Link(VpcRef(home), SubnetRef(s.id), "contains")
    || (e == Link(VpcRef(home), SubnetRef(s.id), "network") && SubnetOwner(d, s.id) == Some(home))
    || (e.source == SubnetRef(s.id) && e.rel == "hosts" && exists r :: r in s.resources && e.target == ResourceRef(r))
  }

  ghost predicate ItemSays(d: Data, home: string, item: Item, e: Link)
  {
    match item
    case InSlot(slot, r) => SlotSays(d, home, slot, r, e)
    case InSubnets(s) => SubnetSays(d, home, s, e)
  }

  lemma ContainedSays(home: string, rs: seq<Resource>, rel: string, e: Link)
    ensures Says(FlatMap(rs, ContainedPushes(home, rel)), e) <==>
              exists r :: r in rs && e == Link(VpcRef(home), ResourceRef(r), rel)
  {
    hide FlatMap;
    var f := ContainedPushes(home, rel);
    SaysMap(rs, f, e);
    forall r: Resource ensures Says(f(r), e) <==> e == Link(VpcRef(home), ResourceRef(r), rel) {
      var edge := [PushEdge(VpcRef(home), ResourceRef(r), rel, false)];
      assert f(r) == [NodeFor(r)] + edge;
      SaysNodeThen(NodeFor(r), edge, e);
      SaysOne(VpcRef(home), ResourceRef(r), rel, false, e);
    }
  }

  lemma LbSlotSays(d: Data, home: string, rs: seq<Resource>, e: Link)
    ensures Says(FlatMap(rs, LbPushes(d, home)), e) <==> exists r :: r in rs && SlotSays(d, home, LoadBalancers, r, e)
  {
    hide FlatMap;
    var f := LbPushes(d, home);
    SaysMap(rs, f, e);
    forall r: Resource ensures Says(f(r), e) <==> SlotSays(d, home, LoadBalancers, r, e) {
      SaysNodeThen(NodeFor(r), LbEdge(d, home, r), e);
      if r.rtype.LoadBalancerListener? {
        var l := ListenerRow(d, r.id);
        if l.Some? { SaysOne(LbNode(l.value.loadBalancerId), ResourceRef(r), "has-listener", false, e); }
      } else {
        SaysOne(VpcRef(home), ResourceRef(r), "contains-load-balancer", false, e);
      }
    }
  }

  lemma HostsSay(subnetId: string, rs: seq<Resource>, e: Link)
    ensures Says(FlatMap(rs, HostPushes(subnetId)), e) <==>
            e.source == SubnetRef(subnetId) && e.rel == "hosts" && exists r :: r in rs && e.target == ResourceRef(r)
  {
    hide FlatMap;
    var f := HostPushes(subnetId);
    SaysMap(rs, f, e);
    forall r: Resource ensures Says(f(r), e) <==> e == Link(SubnetRef(subnetId), ResourceRef(r), "hosts") {
      var edge := [PushEdge(SubnetRef(subnetId), ResourceRef(r), "hosts", false)];
      assert f(r) == [NodeFor(r)] + edge;
      SaysNodeThen(NodeFor(r), edge, e);
      SaysOne(SubnetRef(subnetId), ResourceRef(r), "hosts", false, e);
    }
  }

  lemma OneSubnetSays(d: Data, home: string, s: SubnetSummary, e: Link)
    ensures Says(SubnetPushes(d, home)(s), e) <==> SubnetSays(d, home, s, e)
  {
    hide FlatMap, SubnetOwner, Says;
    var node := PushNode(SubnetRef(s.id), SubnetKind, s.name);
    var contains := [PushEdge(VpcRef(home), SubnetRef(s.id), "contains", false)];
    var network := if SubnetOwner(d, s.id) == Some(home)
                   then [PushEdge(VpcRef(home), SubnetRef(s.id), "network", false)] else [];
    var hosts := FlatMap(s.resources, HostPushes(s.id));
    assert SubnetPushes(d, home)(s) == [node] + contains + network + hosts;
    SaysNodeThen(node, contains, e);
    SaysConcat([node] + contains, network, e);
    SaysConcat([node] + contains + network, hosts, e);
    SaysOne(VpcRef(home), SubnetRef(s.id), "contains", false, e);
    SaysOne(VpcRef(home), SubnetRef(s.id), "network", false, e);
    NothingSaid(e);
    HostsSay(s.id, s.resources, e);
  }

  lemma NothingSaid(e: Link)
    ensures !Says([], e)
  {
  }

  lemma SubnetsSay(d: Data, b: Bucket, e: Link)
    ensures Says(FlatMap(b.subnets, SubnetPushes(d, b.id)), e) <==>
              exists s :: s in b.subnets && SubnetSays(d, b.id, s, e)
  {
    hide FlatMap, SubnetSays, Says;
    SaysMap(b.subnets, SubnetPushes(d, b.id), e);
    forall s: SubnetSummary ensures Says(SubnetPushes(d, b.id)(s), e) <==> SubnetSays(d, b.id, s, e) {
      OneSubnetSays(d, b.id, s, e);
    }
  }

  ghost predicate SlotOfBucketSays(d: Data, b: Bucket, slot: Slot, e: Link)
  {
    exists r :: r in b.Get(slot) && SlotSays(d, b.id, slot, r, e)
  }

  lemma PlainSlotSays(d: Data, b: Bucket, slot: Slot, e: Link)
    requires slot != LoadBalancers
    ensures Says(FlatMap(b.Get(slot), ContainedPushes(b.id, SlotRel(slot))), e) <==> SlotOfBucketSays(d, b, slot, e)
  {
    hide FlatMap, Says;
    ContainedSays(b.id, b.Get(slot), SlotRel(slot), e);
    if SlotOfBucketSays(d, b, slot, e) {
      var r :| r in b.Get(slot) && SlotSays(d, b.id, slot, r, e);
      assert e == Link(VpcRef(b.id), ResourceRef(r), SlotRel(slot));
    }
    if r :| r in b.Get(slot) && e == Link(VpcRef(b.id), ResourceRef(r), SlotRel(slot)) {
      assert SlotSays(d, b.id, slot, r, e);
    }
  }

  lemma BucketParts(d: Data, b: Bucket, e: Link)
    ensures Says(BucketPushes(d)(b), e) <==>
            || (exists s :: s in b.subnets && SubnetSays(d, b.id, s, e))
            || SlotOfBucketSays(d, b, RouteTables, e) || SlotOfBucketSays(d, b, SecurityGroups, e)
               || SlotOfBucketSays(d, b, LoadBalancers, e)
            || SlotOfBucketSays(d, b, Databases, e) || SlotOfBucketSays(d, b, Caches, e)
               || SlotOfBucketSays(d, b, Containers, e)
            || SlotOfBucketSays(d, b, Serverless, e)
  {
    hide FlatMap, Says, SubnetSays;
    var node := PushNode(VpcRef(b.id), VpcKind, b.name);
    var p1 := FlatMap(b.subnets, SubnetPushes(d, b.id));
    var p2 := FlatMap(b.routeTables, ContainedPushes(b.id, "has-route-table"));
    var p3, p4 := FlatMap(b.securityGroups, ContainedPushes(b.id, "has-security-group")), FlatMap(b.loadBalancers,
        LbPushes(d, b.id));
    var p5, p6 := FlatMap(b.databases, ContainedPushes(b.id, "contains-database")), FlatMap(b.caches,
        ContainedPushes(b.id, "contains-cache"));
    var p7 := FlatMap(b.containers, ContainedPushes(b.id, "contains-workload"));
    var p8 := FlatMap(b.serverless, ContainedPushes(b.id, "contains-serverless"));
    SaysNodeThen(node, p1, e);
    SaysConcat([node] + p1, p2, e);
    SaysConcat([node] + p1 + p2, p3, e);
    SaysConcat([node] + p1 + p2 + p3, p4, e);
    SaysConcat([node] + p1 + p2 + p3 + p4, p5, e);
    SaysConcat([node] + p1 + p2 + p3 + p4 + p5, p6, e);
    SaysConcat([node] + p1 + p2 + p3 + p4 + p5 + p6, p7, e);
    SaysConcat([node] + p1 + p2 + p3 + p4 + p5 + p6 + p7, p8, e);
    SubnetsSay(d, b, e);
    LbSlotSays(d, b.id, b.loadBalancers, e);
    PlainSlotSays(d, b, RouteTables, e);
    PlainSlotSays(d, b, SecurityGroups, e);
    PlainSlotSays(d, b, Databases, e);
    PlainSlotSays(d, b, Caches, e);
    PlainSlotSays(d, b, Containers, e);
    PlainSlotSays(d, b, Serverless, e);
  }

  lemma BucketSays(d: Data, b: Bucket, e: Link)
    ensures Says(BucketPushes(d)(b), e) <==> exists item :: HasItem(b, item) && ItemSays(d, b.id, item, e)
  {
    hide BucketPushes, Says, SubnetSays, SlotSays;
    BucketParts(d, b, e);
    if s :| s in b.subnets && SubnetSays(d, b.id, s, e) {
      assert HasItem(b, InSubnets(s)) && ItemSays(d, b.id, InSubnets(s), e);
    }
    forall slot | SlotOfBucketSays(d, b, slot, e) ensures exists item :: HasItem(b, item) && ItemSays(d, b.id, item,
        e) {
      var r :| r in b.Get(slot) && SlotSays(d, b.id, slot, r, e);
      assert HasItem(b, InSlot(slot, r)) && ItemSays(d, b.id, InSlot(slot, r), e);
    }
    if item :| HasItem(b, item) && ItemSays(d, b.id, item, e) {
      if item.InSlot? { assert SlotOfBucketSays(d, b, item.slot, e); }
    }
  }

  // ----- all buckets -----

  ghost predicate PlacementsSay(d: Data, ps: seq<Placement>, e: Link)
  {
    exists p :: p in ps && ItemSays(d, p.home, p.item, e)
  }

  lemma FilledSays(account: string, d: Data, log: seq<Placement>, id: string, e: Link)
    requires id in VpcIds(d) || id == UnassignedId(account)
    ensures Says(BucketPushes(d)(Fill(Base(account, d, id), log)), e) <==>
            exists item :: Placement(id, item) in log && ItemSays(d, id, item, e)
  {
    var b := Fill(Base(account, d, id), log);
    BaseId(account, d, id);
    BucketSays(d, b, e);
    forall item ensures HasItem(b, item) <==> Placement(id, item) in log {
      FillExact(Base(account, d, id), log, item);
      EmptyBucketHolds(account, d, id, item);
    }
    hide HasItem, ItemSays, BucketPushes, Says;
  }

  lemma BucketsSay(account: string, d: Data, e: Link)
    ensures Says(FlatMap(BuildModel(account, d).vpcs, BucketPushes(d)), e) <==>
              PlacementsSay(d, Placements(account, d), e)
  {
    hide Placements, FlatMap, BucketPushes, Base, Fill, ItemSays, BuildModel, Order, VpcIds, Says;
    var log, bs := Placements(account, d), BuildModel(account, d).vpcs;
    SaysMap(bs, BucketPushes(d), e);
    if Says(FlatMap(bs, BucketPushes(d)), e) {
      var b :| b in bs && Says(BucketPushes(d)(b), e);
      BucketsInOrder(account, d, b);
      var id :| id in Order(account, d, log) && b == Fill(Base(account, d, id), log);
      OrderMember(account, d, log, id);
      FilledSays(account, d, log, id, e);
      var item :| Placement(id, item) in log && ItemSays(d, id, item, e);
      assert PlacementsSay(d, log, e);
    }
    if PlacementsSay(d, log, e) {
      var p :| p in log && ItemSays(d, p.home, p.item, e);
      PlacementsHomed(account, d);
      assert HasUnassigned(account, log) || p.home in VpcIds(d);
      OrderMember(account, d, log, p.home);
      var b := Fill(Base(account, d, p.home), log);
      BucketsInOrder(account, d, b);
      assert Placement(p.home, p.item) in log;
      FilledSays(account, d, log, p.home, e);
    }
  }

  // ----- from placements to rows -----

  lemma PlacedMapSays<R>(d: Data, rows: seq<R>, f: R -> seq<Placement>, e: Link)
    ensures PlacementsSay(d, FlatMap(rows, f), e) <==> exists x :: x in rows && PlacementsSay(d, f(x), e)
  {
    hide ItemSays;
    if PlacementsSay(d, FlatMap(rows, f), e) {
      var p :| p in FlatMap(rows, f) && ItemSays(d, p.home, p.item, e);
      FlatMapMember(rows, f, p);
    }
    if x :| x in rows && PlacementsSay(d, f(x), e) {
      var p :| p in f(x) && ItemSays(d, p.home, p.item, e);
      FlatMapMember(rows, f, p);
    }
  }

  lemma PlacedConcatSays(d: Data, a: seq<Placement>, b: seq<Placement>, e: Link)
    ensures PlacementsSay(d, a + b, e) <==> PlacementsSay(d, a, e) || PlacementsSay(d, b, e)
  {
    hide ItemSays;
    if p :| p in a && ItemSays(d, p.home, p.item, e) { assert p in a + b; }
    if p :| p in b && ItemSays(d, p.home, p.item, e) { assert p in a + b; }
  }

  lemma OnePlacedSays(d: Data, home: string, item: Item, e: Link)
    ensures PlacementsSay(d, [Placement(home, item)], e) <==> ItemSays(d, home, item, e)
  {
    hide ItemSays;
    assert Placement(home, item) in [Placement(home, item)];
  }

  /** e runs from a VPC node to a resource of this kind, under this relationship. */
  predicate Contains(e: Link, prefix: Prefix, rel: string)
  {
    e.source.prefix == VpcP && e.target.prefix == prefix && e.rel == rel
  }

  lemma PlacedRows(account: string, d: Data, rows: seq<Placed>, slot: Slot, t: ResourceType, e: Link)
    requires slot != LoadBalancers
    ensures PlacementsSay(d, FlatMap(rows, PlaceIn(account, d, slot, t)), e) <==>
            Contains(e, PrefixOf(t), SlotRel(slot)) && PlacedIn(account, d, rows, e.source.id, e.target.id)
  {
    hide FlatMap, Home, PlacementsSay, SlotRel;
    PlacedMapSays(d, rows, PlaceIn(account, d, slot, t), e);
    forall x: Placed
      ensures PlacementsSay(d, PlaceIn(account, d, slot, t)(x), e) <==>
              Contains(e, PrefixOf(t), SlotRel(slot)) && e.target.id == x.id && e.source.id == Home(account, d, x.vpcId)
    {
      OnePlacedSays(d, Home(account, d, x.vpcId), InSlot(slot, Resource(x.id, t, x.name)), e);
    }
  }

  lemma RouteTableRows(account: string, d: Data, e: Link)
    ensures PlacementsSay(d, FlatMap(d.routeTables, PlaceRouteTable(account, d)), e) <==>
            && Contains(e, RouteTableP, "has-route-table")
            && exists x :: x in d.routeTables && x.id == e.target.id && Home(account, d, Some(x.vpcId)) == e.source.id
  {
    hide FlatMap, Home, PlacementsSay;
    PlacedMapSays(d, d.routeTables, PlaceRouteTable(account, d), e);
    forall x: RouteTable
      ensures PlacementsSay(d, PlaceRouteTable(account, d)(x), e) <==>
              Contains(e, RouteTableP, "has-route-table") && e.target.id == x.id
                && e.source.id == Home(account, d, Some(x.vpcId))
    {
      OnePlacedSays(d, Home(account, d, Some(x.vpcId)), InSlot(RouteTables, Resource(x.id, RouteTableType, x.name)), e);
    }
  }

  lemma LbRows(account: string, d: Data, e: Link)
    ensures PlacementsSay(d, FlatMap(d.loadBalancers, PlaceLb(account, d)), e) <==>
            && Contains(e, LbP, "contains-load-balancer")
            && exists x :: x in d.loadBalancers && x.id == e.target.id && Home(account, d, x.vpcId) == e.source.id
  {
    hide FlatMap, Home, PlacementsSay;
    PlacedMapSays(d, d.loadBalancers, PlaceLb(account, d), e);
    forall x: LoadBalancer
      ensures PlacementsSay(d, PlaceLb(account, d)(x), e) <==>
              Contains(e, LbP, "contains-load-balancer") && e.target.id == x.id
                && e.source.id == Home(account, d, x.vpcId)
    {
      OnePlacedSays(d, Home(account, d, x.vpcId),
                    InSlot(LoadBalancers, Resource(x.id, LoadBalancerOf(x.lbType), x.name)), e);
    }
  }

  lemma ListenerRows(account: string, d: Data, e: Link)
    requires UniqueBy(d.listeners, IdOfListener)
    ensures PlacementsSay(d, FlatMap(d.listeners, PlaceListener(account, d)), e) <==>
              e.source.prefix == LbP && ListenerMeans(d, e)
  {
    hide FlatMap, Home, LbVpc, PlacementsSay;
    PlacedMapSays(d, d.listeners, PlaceListener(account, d), e);
    forall x | x in d.listeners
      ensures PlacementsSay(d, PlaceListener(account, d)(x), e) <==>
                e == Link(LbNode(x.loadBalancerId), NodeRef(ListenerP, x.id), "has-listener")
    {
      var row := ListenerRow(d, x.id);
      UniqueRow(d.listeners, IdOfListener, row.value, x);
      OnePlacedSays(d, Home(account, d, LbVpc(d.loadBalancers, x.loadBalancerId)),
                    InSlot(LoadBalancers, Resource(x.id, LoadBalancerListener, x.name)), e);
    }
  }

  lemma ClusterRows(account: string, d: Data, e: Link)
    ensures PlacementsSay(d, FlatMap(d.clusters, PlaceCluster(account)), e) <==>
            Contains(e, ClusterP, "contains-workload") && e.source.id == UnassignedId(account)
              && exists x :: x in d.clusters && x.id == e.target.id
  {
    hide FlatMap, PlacementsSay, UnassignedId;
    PlacedMapSays(d, d.clusters, PlaceCluster(account), e);
    forall x: Cluster
      ensures PlacementsSay(d, PlaceCluster(account)(x), e) <==>
              Contains(e, ClusterP, "contains-workload") && e.target.id == x.id && e.source.id == UnassignedId(account)
    {
      OnePlacedSays(d, UnassignedId(account), InSlot(Containers, Resource(x.id, EcsCluster, x.name)), e);
    }
  }

  lemma ServiceRows(account: string, d: Data, e: Link)
    ensures PlacementsSay(d, FlatMap(d.services, PlaceService(account)), e) <==>
            Contains(e, ServiceP, "contains-workload") && e.source.id == UnassignedId(account)
              && exists x :: x in d.services && x.id == e.target.id
  {
    hide FlatMap, PlacementsSay, UnassignedId;
    PlacedMapSays(d, d.services, PlaceService(account), e);
    forall x: Service
      ensures PlacementsSay(d, PlaceService(account)(x), e) <==>
              Contains(e, ServiceP, "contains-workload") && e.target.id == x.id && e.source.id == UnassignedId(account)
    {
      OnePlacedSays(d, UnassignedId(account), InSlot(Containers, Resource(x.id, EcsService, x.name)), e);
    }
  }

  lemma TaskDefRows(account: string, d: Data, e: Link)
    ensures PlacementsSay(d, FlatMap(d.taskDefs, PlaceTaskDef(account, d)), e) <==>
            && Contains(e, TaskDefP, "contains-workload") && e.source.id == UnassignedId(account)
               && InUse(d, e.target.id)
            && exists x :: x in d.taskDefs && x.id == e.target.id
  {
    hide FlatMap, PlacementsSay, UnassignedId, InUse;
    PlacedMapSays(d, d.taskDefs, PlaceTaskDef(account, d), e);
    forall x: TaskDef
      ensures PlacementsSay(d, PlaceTaskDef(account, d)(x), e) <==>
              Contains(e, TaskDefP, "contains-workload") && e.target.id == x.id && e.source.id == UnassignedId(account)
                && InUse(d, x.id)
    {
      OnePlacedSays(d, UnassignedId(account), InSlot(Containers, Resource(x.id, EcsTaskDefinition, x.name)), e);
      NothingPlaced(d, e);
    }
  }

  lemma NothingPlaced(d: Data, e: Link)
    ensures !PlacementsSay(d, [], e)
  {
  }

  lemma HostedRows(d: Data, s: Subnet, target: NodeRef)
    ensures (exists r :: r in FlatMap(d.ec2Instances, HostedIn(s)) && target == ResourceRef(r)) <==>
            && target.prefix == Ec2P
            && exists x :: x in d.ec2Instances && x.id == target.id && x.awsSubnetId == s.awsSubnetId
  {
    if r :| r in FlatMap(d.ec2Instances, HostedIn(s)) && target == ResourceRef(r) {
      FlatMapMember(d.ec2Instances, HostedIn(s), r);
    }
    if x :| x in d.ec2Instances && target == NodeRef(Ec2P, x.id) && x.awsSubnetId == s.awsSubnetId {
      var r := Resource(x.id, Ec2Instance, x.name);
      FlatMapMember(d.ec2Instances, HostedIn(s), r);
      assert r in HostedIn(s)(x);
    }
  }

  lemma SubnetRows(account: string, d: Data, e: Link)
    ensures PlacementsSay(d, FlatMap(d.subnets, PlaceSubnet(account, d)), e) <==>
            || (e.source.prefix == VpcP && e.target.prefix == SubnetP && VpcMeans(account, d, e))
            || (e.source.prefix == SubnetP && HostMeans(d, e))
  {
    hide FlatMap, Home, SubnetOwner, PlacementsSay;
    PlacedMapSays(d, d.subnets, PlaceSubnet(account, d), e);
    forall x: Subnet
      ensures PlacementsSay(d, PlaceSubnet(account, d)(x), e) <==>
              || (e.source == VpcRef(Home(account, d, Some(x.vpcId))) && e.target == SubnetRef(x.id)
                  && (e.rel == "contains" || (e.rel == "network" && SubnetOwner(d, x.id) == Some(e.source.id))))
              || (e.source == SubnetRef(x.id) && e.rel == "hosts" && e.target.prefix == Ec2P
                  && exists i :: i in d.ec2Instances && i.id == e.target.id && i.awsSubnetId == x.awsSubnetId)
    {
      OnePlacedSays(d, Home(account, d, Some(x.vpcId)), InSubnets(Summarize(d, x)), e);
      HostedRows(d, x, e.target);
    }
  }

  /** What the tables other than subnets and listeners contribute. */
  ghost predicate ContainedRow(account: string, d: Data, e: Link)
  {
    var vpc, id := e.source.id, e.target.id;
    || (Contains(e, SecurityGroupP, "has-security-group") && PlacedIn(account, d, d.securityGroups, vpc, id))
    || (Contains(e, RouteTableP, "has-route-table")
        && exists x :: x in d.routeTables && x.id == id && Home(account, d, Some(x.vpcId)) == vpc)
    || (Contains(e, LbP, "contains-load-balancer")
        && exists x :: x in d.loadBalancers && x.id == id && Home(account, d, x.vpcId) == vpc)
    || (Contains(e, RdsP, "contains-database") && PlacedIn(account, d, d.rds, vpc, id))
    || (Contains(e, ClusterP, "contains-workload") && vpc == UnassignedId(account)
        && exists x :: x in d.clusters && x.id == id)
    || (Contains(e, TaskDefP, "contains-workload") && vpc == UnassignedId(account) && InUse(d, id)
        && exists x :: x in d.taskDefs && x.id == id)
    || (Contains(e, ServiceP, "contains-workload") && vpc == UnassignedId(account)
        && exists x :: x in d.services && x.id == id)
    || (Contains(e, EksP, "contains-workload") && PlacedIn(account, d, d.eks, vpc, id))
    || (Contains(e, LambdaP, "contains-serverless") && PlacedIn(account, d, d.lambdas, vpc, id))
    || (Contains(e, CacheP, "contains-cache") && PlacedIn(account, d, d.caches, vpc, id))
  }

  lemma ContainedByTarget(account: string, d: Data, e: Link)
    ensures ContainedRow(account, d, e) <==> e.source.prefix == VpcP && e.target.prefix != SubnetP && VpcMeans(account,
        d, e)
  {
    hide Home, InUse, PlacedIn, SubnetOwner, UnassignedId;
  }

  lemma TablesAreRows(account: string, d: Data, e: Link)
    requires UniqueBy(d.listeners, IdOfListener)
    ensures PlacementsSay(d, Placements(account, d), e) <==>
            || PlacementsSay(d, FlatMap(d.subnets, PlaceSubnet(account, d)), e)
            || PlacementsSay(d, FlatMap(d.listeners, PlaceListener(account, d)), e)
            || ContainedRow(account, d, e)
  {
    hide FlatMap, PlacementsSay, Placements, Home, InUse, PlacedIn, Contains, UnassignedId;
    TablesSay(account, d, e);
    PlacedRows(account, d, d.securityGroups, SecurityGroups, SecurityGroup, e);
    RouteTableRows(account, d, e);
    LbRows(account, d, e);
    PlacedRows(account, d, d.rds, Databases, RdsInstance, e);
    ClusterRows(account, d, e);
    TaskDefRows(account, d, e);
    ServiceRows(account, d, e);
    PlacedRows(account, d, d.eks, Containers, EksCluster, e);
    PlacedRows(account, d, d.lambdas, Serverless, LambdaFunction, e);
    PlacedRows(account, d, d.caches, Caches, ElastiCacheCluster, e);
  }

  lemma PlacementsMean(account: string, d: Data, e: Link)
    requires UniqueBy(d.listeners, IdOfListener)
    ensures PlacementsSay(d, Placements(account, d), e) <==> BucketMeans(account, d, e)
  {
    hide FlatMap, PlacementsSay, Placements, VpcMeans, HostMeans, ListenerMeans, ContainedRow;
    TablesAreRows(account, d, e);
    SubnetRows(account, d, e);
    ListenerRows(account, d, e);
    ContainedByTarget(account, d, e);
  }

  lemma TablesSay(account: string, d: Data, e: Link)
    ensures PlacementsSay(d, Placements(account, d), e) <==>
            || PlacementsSay(d, FlatMap(d.subnets, PlaceSubnet(account, d)), e)
            || PlacementsSay(d, FlatMap(d.securityGroups, PlaceIn(account, d, SecurityGroups, SecurityGroup)), e)
            || PlacementsSay(d, FlatMap(d.routeTables, PlaceRouteTable(account, d)), e)
            || PlacementsSay(d, FlatMap(d.loadBalancers, PlaceLb(account, d)), e)
            || PlacementsSay(d, FlatMap(d.listeners, PlaceListener(account, d)), e)
            || PlacementsSay(d, FlatMap(d.rds, PlaceIn(account, d, Databases, RdsInstance)), e)
            || PlacementsSay(d, FlatMap(d.clusters, PlaceCluster(account)), e)
            || PlacementsSay(d, FlatMap(d.taskDefs, PlaceTaskDef(account, d)), e)
            || PlacementsSay(d, FlatMap(d.services, PlaceService(account)), e)
            || PlacementsSay(d, FlatMap(d.eks, PlaceIn(account, d, Containers, EksCluster)), e)
            || PlacementsSay(d, FlatMap(d.lambdas, PlaceIn(account, d, Serverless, LambdaFunction)), e)
            || PlacementsSay(d, FlatMap(d.caches, PlaceIn(account, d, Caches, ElastiCacheCluster)), e)
  {
    hide FlatMap, PlacementsSay;
    var a := FlatMap(d.subnets, PlaceSubnet(account, d));
    var b := FlatMap(d.securityGroups, PlaceIn(account, d, SecurityGroups, SecurityGroup));
    var c := FlatMap(d.routeTables, PlaceRouteTable(account, d));
    var f := FlatMap(d.loadBalancers, PlaceLb(account, d));
    var g := FlatMap(d.listeners, PlaceListener(account, d));
    var h := FlatMap(d.rds, PlaceIn(account, d, Databases, RdsInstance));
    var i := FlatMap(d.clusters, PlaceCluster(account));
    var j := FlatMap(d.taskDefs, PlaceTaskDef(account, d));
    var k := FlatMap(d.services, PlaceService(account));
    var l := FlatMap(d.eks, PlaceIn(account, d, Containers, EksCluster));
    var m := FlatMap(d.lambdas, PlaceIn(account, d, Serverless, LambdaFunction));
    var n := FlatMap(d.caches, PlaceIn(account, d, Caches, ElastiCacheCluster));
    PlacedConcatSays(d, a, b, e);
    PlacedConcatSays(d, a + b, c, e);
    PlacedConcatSays(d, a + b + c, f, e);
    PlacedConcatSays(d, a + b + c + f, g, e);
    PlacedConcatSays(d, a + b + c + f + g, h, e);
    PlacedConcatSays(d, a + b + c + f + g + h, i, e);
    PlacedConcatSays(d, a + b + c + f + g + h + i, j, e);
    PlacedConcatSays(d, a + b + c + f + g + h + i + j, k, e);
    PlacedConcatSays(d, a + b + c + f + g + h + i + j + k, l, e);
    PlacedConcatSays(d, a + b + c + f + g + h + i + j + k + l, m, e);
    PlacedConcatSays(d, a + b + c + f + g + h + i + j + k + l + m, n, e);
  }

  // ----- resources picked from the buckets -----

  /** Across all buckets, the resources of a slot are those placed in it. */
  lemma SlotAcross(account: string, d: Data, slot: Slot, x: Resource)
    ensures (exists b :: b in BuildModel(account, d).vpcs && x in b.Get(slot)) <==>
            exists p :: p in Placements(account, d) && p.item == InSlot(slot, x)
  {
    hide Placements, FlatMap, Base, Fill, BuildModel, Order, VpcIds;
    var log, bs := Placements(account, d), BuildModel(account, d).vpcs;
    var item := InSlot(slot, x);
    if b :| b in bs && x in b.Get(slot) {
      assert HasItem(b, item);
      BucketsInOrder(account, d, b);
      var id :| id in Order(account, d, log) && b == Fill(Base(account, d, id), log);
      FillExact(Base(account, d, id), log, item);
      EmptyBucketHolds(account, d, id, item);
    }
    if p :| p in log && p.item == item {
      PlacementsHomed(account, d);
      OrderMember(account, d, log, p.home);
      var b := Fill(Base(account, d, p.home), log);
      BucketsInOrder(account, d, b);
      BaseId(account, d, p.home);
      assert Placement(p.home, item) in log;
      FillExact(Base(account, d, p.home), log, item);
      assert HasItem(b, item);
    }
  }

  lemma LbsAcross(account: string, d: Data, r: NodeRef)
    ensures (exists y :: y in FlatMap(BuildModel(account, d).vpcs, LbsOf) && ResourceRef(y) == r) <==> ListedLb(d, r)
  {
    hide FlatMap, Placements, BuildModel, ListedLb;
    var bs := BuildModel(account, d).vpcs;
    if y :| y in FlatMap(bs, LbsOf) && ResourceRef(y) == r {
      FlatMapMember(bs, LbsOf, y);
      var b :| b in bs && y in LbsOf(b);
      FlatMapMember(b.loadBalancers, IsLoadBalancer, y);
      assert y in b.Get(LoadBalancers) && y.rtype.LoadBalancerOf?;
      SlotAcross(account, d, LoadBalancers, y);
      LbPlacedRow(account, d, y);
    }
    if ListedLb(d, r) {
      var y := LbResource(account, d, r);
      LbPlacedRow(account, d, y);
      SlotAcross(account, d, LoadBalancers, y);
      var b :| b in bs && y in b.Get(LoadBalancers);
      FlatMapMember(b.loadBalancers, IsLoadBalancer, y);
      FlatMapMember(bs, LbsOf, y);
    }
  }

  lemma LbResource(account: string, d: Data, r: NodeRef) returns (y: Resource)
    requires ListedLb(d, r)
    ensures y.rtype.LoadBalancerOf? && ResourceRef(y) == r
    ensures exists lb :: lb in d.loadBalancers && y == Resource(lb.id, LoadBalancerOf(lb.lbType), lb.name)
  {
    var lb :| lb in d.loadBalancers && lb.id == r.id;
    y := Resource(lb.id, LoadBalancerOf(lb.lbType), lb.name);
  }

  /** A load balancer resource is placed exactly when a row makes it. */
  lemma LbPlacedRow(account: string, d: Data, y: Resource)
    requires y.rtype.LoadBalancerOf?
    ensures (exists p :: p in Placements(account, d) && p.item == InSlot(LoadBalancers, y)) <==>
            exists lb :: lb in d.loadBalancers && y == Resource(lb.id, LoadBalancerOf(lb.lbType), lb.name)
    ensures (exists p :: p in Placements(account, d) && p.item == InSlot(LoadBalancers, y)) ==>
              ListedLb(d, ResourceRef(y))
  {
    hide Placements, Home, VpcIds;
    if p :| p in Placements(account, d) && p.item == InSlot(LoadBalancers, y) {
      PlacedOrigin(account, d, p);
    }
    if lb :| lb in d.loadBalancers && y == Resource(lb.id, LoadBalancerOf(lb.lbType), lb.name) {
      var p := Placement(Home(account, d, lb.vpcId), InSlot(LoadBalancers, y));
      assert p in PlaceLb(account, d)(lb);
      PlacedOrigin(account, d, p);
    }
  }

  /** Placements of load balancers and functions come from their tables. */
  lemma PlacedOrigin(account: string, d: Data, p: Placement)
    requires p.item.InSlot? && (p.item.resource.rtype.LoadBalancerOf? || p.item.resource.rtype.LambdaFunction?)
    ensures p in Placements(account, d) <==>
            || (exists lb :: lb in d.loadBalancers && p in PlaceLb(account, d)(lb))
            || (exists x :: x in d.lambdas && p in PlaceIn(account, d, Serverless, LambdaFunction)(x))
  {
    FlatMapMember(d.subnets, PlaceSubnet(account, d), p);
    FlatMapMember(d.securityGroups, PlaceIn(account, d, SecurityGroups, SecurityGroup), p);
    FlatMapMember(d.routeTables, PlaceRouteTable(account, d), p);
    FlatMapMember(d.loadBalancers, PlaceLb(account, d), p);
    FlatMapMember(d.listeners, PlaceListener(account, d), p);
    FlatMapMember(d.rds, PlaceIn(account, d, Databases, RdsInstance), p);
    FlatMapMember(d.clusters, PlaceCluster(account), p);
    FlatMapMember(d.taskDefs, PlaceTaskDef(account, d), p);
    FlatMapMember(d.services, PlaceService(account), p);
    FlatMapMember(d.eks, PlaceIn(account, d, Containers, EksCluster), p);
    FlatMapMember(d.lambdas, PlaceIn(account, d, Serverless, LambdaFunction), p);
    FlatMapMember(d.caches, PlaceIn(account, d, Caches, ElastiCacheCluster), p);
    hide FlatMap, Home, LbVpc, Summarize, InUse;
  }

  lemma LambdasAcross(account: string, d: Data, r: NodeRef)
    ensures (exists y :: y in FlatMap(BuildModel(account, d).vpcs, LambdasOf) && ResourceRef(y) == r) <==>
              ListedLambda(d, r)
  {
    hide FlatMap, Placements, BuildModel, ListedLambda;
    var bs := BuildModel(account, d).vpcs;
    if y :| y in FlatMap(bs, LambdasOf) && ResourceRef(y) == r {
      FlatMapMember(bs, LambdasOf, y);
      var b :| b in bs && y in LambdasOf(b);
      FlatMapMember(b.serverless, IsLambda, y);
      assert y in b.Get(Serverless) && y.rtype.LambdaFunction?;
      SlotAcross(account, d, Serverless, y);
      LambdaPlacedRow(account, d, y);
    }
    if ListedLambda(d, r) {
      var y := LambdaResource(d, r);
      LambdaPlacedRow(account, d, y);
      SlotAcross(account, d, Serverless, y);
      var b :| b in bs && y in b.Get(Serverless);
      FlatMapMember(b.serverless, IsLambda, y);
      FlatMapMember(bs, LambdasOf, y);
    }
  }

  lemma LambdaResource(d: Data, r: NodeRef) returns (y: Resource)
    requires ListedLambda(d, r)
    ensures y.rtype.LambdaFunction? && ResourceRef(y) == r
    ensures exists x :: x in d.lambdas && y == Resource(x.id, LambdaFunction, x.name)
  {
    var x :| x in d.lambdas && x.id == r.id;
    y := Resource(x.id, LambdaFunction, x.name);
  }

  lemma LambdaPlacedRow(account: string, d: Data, y: Resource)
    requires y.rtype.LambdaFunction?
    ensures (exists p :: p in Placements(account, d) && p.item == InSlot(Serverless, y)) <==>
            exists x :: x in d.lambdas && y == Resource(x.id, LambdaFunction, x.name)
    ensures (exists p :: p in Placements(account, d) && p.item == InSlot(Serverless, y)) ==>
              ListedLambda(d, ResourceRef(y))
  {
    hide Placements, Home, VpcIds;
    if p :| p in Placements(account, d) && p.item == InSlot(Serverless, y) {
      PlacedOrigin(account, d, p);
    }
    if x :| x in d.lambdas && y == Resource(x.id, LambdaFunction, x.name) {
      var p := Placement(Home(account, d, x.vpcId), InSlot(Serverless, y));
      assert p in PlaceIn(account, d, Serverless, LambdaFunction)(x);
      PlacedOrigin(account, d, p);
    }
  }

  // ----- the whole graph -----

  lemma CrossSays(account: string, d: Data, e: Link)
    ensures var m := BuildModel(account, d);
            || Says(FlatMap(m.globals(Route53), LinkAll(m.globals(CloudFront), "dns")), e)
            || Says(FlatMap(m.globals(CloudFront), LinkAll(FlatMap(m.vpcs, LbsOf), "http-s")), e)
            || Says(FlatMap(m.globals(ApiGateways), LinkAll(FlatMap(m.vpcs, LambdasOf), "invoke")), e)
            <==> CrossMeans(d, e)
  {
    hide FlatMap, Placements, Order, Says, ListedGlobal, ListedLb, ListedLambda;
    var m := BuildModel(account, d);
    LinksSay(m.globals(Route53), m.globals(CloudFront), "dns", e);
    LinksSay(m.globals(CloudFront), FlatMap(m.vpcs, LbsOf), "http-s", e);
    LinksSay(m.globals(ApiGateways), FlatMap(m.vpcs, LambdasOf), "invoke", e);
    GlobalRow(d, Route53, e.source);
    GlobalRow(d, CloudFront, e.target);
    GlobalRow(d, CloudFront, e.source);
    GlobalRow(d, ApiGateways, e.source);
    LbsAcross(account, d, e.target);
    LambdasAcross(account, d, e.target);
  }

  lemma ScriptSays(account: string, d: Data, e: Link)
    ensures var m := BuildModel(account, d);
            Says(ScriptOf(account, d), e) <==>
            || Says(FlatMap(m.vpcs, BucketPushes(d)), e) || Says(FlatMap(d.routeTables, RoutePushes(d)), e)
            || Says(FlatMap(d.loadBalancers, LbSubnetPushes(d)), e) || Says(FlatMap(d.services, ServicePushes(d)), e)
            || Says(FlatMap(GLOBAL_ORDER, CollectionPushes(m)), e) || CrossMeans(d, e)
  {
    hide FlatMap, Placements, Says, BuildModel, CrossMeans;
    var m := BuildModel(account, d);
    var s0 := PushNode(RootRef(m.cloudAccountId), FlowGraph.GlobalKind, "Global Resources");
    var s1, s2, s3 := FlatMap(m.vpcs, BucketPushes(d)), FlatMap(d.routeTables, RoutePushes(d)), FlatMap(d.loadBalancers,
        LbSubnetPushes(d));
    var s4, s5 := FlatMap(d.services, ServicePushes(d)), FlatMap(GLOBAL_ORDER, CollectionPushes(m));
    var s6 := FlatMap(m.globals(Route53), LinkAll(m.globals(CloudFront), "dns"));
    var s7 := FlatMap(m.globals(CloudFront), LinkAll(FlatMap(m.vpcs, LbsOf), "http-s"));
    var s8 := FlatMap(m.globals(ApiGateways), LinkAll(FlatMap(m.vpcs, LambdasOf), "invoke"));
    SaysNodeThen(s0, s1, e);
    SaysConcat([s0] + s1, s2, e);
    SaysConcat([s0] + s1 + s2, s3, e);
    SaysConcat([s0] + s1 + s2 + s3, s4, e);
    SaysConcat([s0] + s1 + s2 + s3 + s4, s5, e);
    SaysConcat([s0] + s1 + s2 + s3 + s4 + s5, s6, e);
    SaysConcat([s0] + s1 + s2 + s3 + s4 + s5 + s6, s7, e);
    SaysConcat([s0] + s1 + s2 + s3 + s4 + s5 + s6 + s7, s8, e);
    CrossSays(account, d, e);
  }

  lemma GlobalsSay(account: string, d: Data, e: Link)
    ensures Says(FlatMap(GLOBAL_ORDER, CollectionPushes(BuildModel(account, d))), e) <==> GlobalMeans(account, d, e)
  {
    hide FlatMap, Placements, Says, BuildModel, ListedGlobal;
    var m := BuildModel(account, d);
    SaysMap(GLOBAL_ORDER, CollectionPushes(m), e);
    forall k: Inventory.GlobalKind
      ensures k in GLOBAL_ORDER
      ensures Says(CollectionPushes(m)(k), e) <==>
                e.source == RootRef(account) && ListedGlobal(d, k, e.target) && e.rel == RootRelation(k)
    {
      AllKindsListed(k);
      ContainmentNames(k);
      CollectionSays(account, d, k, e);
    }
  }

  lemma TablesSayEdges(d: Data, e: Link)
    requires UniqueBy(d.taskDefs, IdOfTaskDef)
    ensures Says(FlatMap(d.routeTables, RoutePushes(d)), e) <==>
              exists rt :: rt in d.routeTables && RouteMeans(d, rt, e)
    ensures Says(FlatMap(d.loadBalancers, LbSubnetPushes(d)), e) <==>
              exists lb :: lb in d.loadBalancers && AttachMeans(d, lb, e)
    ensures Says(FlatMap(d.services, ServicePushes(d)), e) <==>
              exists x :: x in d.services && Attached(d, x) && ServiceMeans(d, x, e)
  {
    hide FlatMap, Says, RouteMeans, AttachMeans, Attached, ServiceMeans;
    SaysMap(d.routeTables, RoutePushes(d), e);
    SaysMap(d.loadBalancers, LbSubnetPushes(d), e);
    SaysMap(d.services, ServicePushes(d), e);
    forall rt | rt in d.routeTables ensures Says(RoutePushes(d)(rt), e) <==> RouteMeans(d, rt, e) {
      RouteSays(d, rt, e);
    }
    forall lb | lb in d.loadBalancers ensures Says(LbSubnetPushes(d)(lb), e) <==> AttachMeans(d, lb, e) {
      AttachSays(d, lb, e);
    }
    forall x | x in d.services ensures Says(ServicePushes(d)(x), e) <==> Attached(d, x) && ServiceMeans(d, x, e) {
      ServiceSays(d, x, e);
    }
  }

  lemma PushesMean(account: string, d: Data, e: Link)
    requires UniqueBy(d.taskDefs, IdOfTaskDef) && UniqueBy(d.listeners, IdOfListener)
    ensures Says(ScriptOf(account, d), e) <==> Means(account, d, e)
  {
    hide FlatMap, Placements, Says, BuildModel, ScriptOf, BucketMeans, RouteMeans, AttachMeans, ServiceMeans,
         Attached, GlobalMeans, CrossMeans, PlacementsSay;
    ScriptSays(account, d, e);
    BucketsSay(account, d, e);
    PlacementsMean(account, d, e);
    TablesSayEdges(d, e);
    GlobalsSay(account, d, e);
  }

  /** The graph has an edge exactly when rows of the inventory stand in the relation it shows: containment by
      home, hosting, listeners, routes, attachments, service placement, traffic, task definitions, roles,
      account-wide resources and the global links. */
  lemma EdgesMean(account: string, d: Data, e: Link)
    requires UniqueBy(d.taskDefs, IdOfTaskDef) && UniqueBy(d.listeners, IdOfListener) && PlainIds(account, d)
    ensures HasEdge(GraphOf(account, d), e.source, e.target, e.rel) <==> Means(account, d, e)
  {
    hide Script, Exec, PlainIds, HasEdge, Means, PlainEdges, ScriptOf;
    ScriptPlain(account, d);
    EdgesExact(ScriptOf(account, d));
    PushesMean(account, d, e);
  }
}
