/** The nodes of the compiled graph: exactly those of the inventory, kind by kind. */
module GraphTheorems {
  import opened Seqs
  import opened Inventory
  import opened ArchitectureModel
  import opened FlowGraph
  import opened GraphCompiler

  /** The graph served for an inventory: model, pushes, deduplication. */
  function GraphOf(account: string, d: Data): Graph
  {
    Exec(ScriptOf(account, d))
  }

  function ScriptOf(account: string, d: Data): seq<Push>
  {
    Script(BuildModel(account, d), d)
  }

  // ----- the nodes, independently of how they are pushed -----

  predicate Hosted(d: Data, e: Ec2)
  {
    exists s :: s in d.subnets && s.awsSubnetId == e.awsSubnetId
  }

  /** The ids that must appear under a prefix. */
  function Ids(account: string, d: Data, p: Prefix): set<string>
  {
    match p
    case Root => {account}
    case VpcP => VpcIds(d) + (if HasUnassigned(account, Placements(account, d)) then {UnassignedId(account)} else {})
    case SubnetP => set s | s in d.subnets :: s.id
    case Ec2P => set e | e in d.ec2Instances && Hosted(d, e) :: e.id
    case ListenerP => set l | l in d.listeners :: l.id
    case LbP => set lb | lb in d.loadBalancers :: lb.id
    case RouteTableP => set r | r in d.routeTables :: r.id
    case SecurityGroupP => set x | x in d.securityGroups :: x.id
    case RdsP => set x | x in d.rds :: x.id
    case CacheP => set x | x in d.caches :: x.id
    case LambdaP => set x | x in d.lambdas :: x.id
    case EksP => set x | x in d.eks :: x.id
    case ClusterP => set c | c in d.clusters :: c.id
    case ServiceP => set s | s in d.services :: s.id
    case TaskDefP => set t | t in d.taskDefs && InUse(d, t.id) :: t.id
    case GlobalP(k) => set g | g in d.globals(k) :: g.id
  }

  // ----- nodes pushed by a placement -----

  function ItemRefs(item: Item): set<NodeRef>
  {
    match item
    case InSlot(_, r) => {ResourceRef(r)}
    case InSubnets(s) => {SubnetRef(s.id)} + set r | r in s.resources :: ResourceRef(r)
  }

  function PlacedRefs(log: seq<Placement>): set<NodeRef>
  {
    set p, r | p in log && r in ItemRefs(p.item) :: r
  }

  lemma PlacedRefsMap<R>(rows: seq<R>, f: R -> seq<Placement>, refs: set<NodeRef>)
    requires forall r :: r in refs ==> exists x :: x in rows && r in PlacedRefs(f(x))
    requires forall x :: x in rows ==> PlacedRefs(f(x)) <= refs
    ensures PlacedRefs(FlatMap(rows, f)) == refs
  {
    forall r ensures r in PlacedRefs(FlatMap(rows, f)) <==> r in refs {
      if r in refs {
        var x :| x in rows && r in PlacedRefs(f(x));
        var p :| p in f(x) && r in ItemRefs(p.item);
        FlatMapMember(rows, f, p);
      }
      if r in PlacedRefs(FlatMap(rows, f)) {
        var p :| p in FlatMap(rows, f) && r in ItemRefs(p.item);
        FlatMapMember(rows, f, p);
        var x :| x in rows && p in f(x);
        assert r in PlacedRefs(f(x));
      }
    }
  }

  function RefsUnder(account: string, d: Data, p: Prefix): set<NodeRef>
  {
    set id | id in Ids(account, d, p) :: NodeRef(p, id)
  }

  lemma PlacedOne(p: Placement)
    ensures PlacedRefs([p]) == ItemRefs(p.item)
  {
    assert p in [p];
  }

  lemma PlacedConcat(a: seq<Placement>, b: seq<Placement>)
    ensures PlacedRefs(a + b) == PlacedRefs(a) + PlacedRefs(b)
  {
  }

  lemma PlacedSubnets(account: string, d: Data)
    ensures PlacedRefs(FlatMap(d.subnets, PlaceSubnet(account, d))) == RefsUnder(account, d, SubnetP)
            + RefsUnder(account, d, Ec2P)
  {
    var f := PlaceSubnet(account, d);
    var refs := RefsUnder(account, d, SubnetP) + RefsUnder(account, d, Ec2P);
    forall s | s in d.subnets ensures forall r :: r in PlacedRefs(f(s)) <==> r == SubnetRef(s.id) || HostsRef(d, s, r) {
      PlacedOne(f(s)[0]);
      assert f(s) == [f(s)[0]];
      forall r ensures (exists x :: x in Summarize(d, s).resources && r == ResourceRef(x)) <==> HostsRef(d, s, r) {
        HostedResources(d, s, r);
      }
    }
    forall r | r in refs ensures exists s :: s in d.subnets && r in PlacedRefs(f(s)) {
      if r.prefix == SubnetP {
        var s :| s in d.subnets && s.id == r.id;
        assert r in PlacedRefs(f(s));
      } else {
        var e :| e in d.ec2Instances && Hosted(d, e) && e.id == r.id;
        var s :| s in d.subnets && s.awsSubnetId == e.awsSubnetId;
        assert HostsRef(d, s, r);
        assert r in PlacedRefs(f(s));
      }
    }
    forall s | s in d.subnets ensures PlacedRefs(f(s)) <= refs {
      forall r | r in PlacedRefs(f(s)) ensures r in refs {
        if r != SubnetRef(s.id) {
          var e :| e in d.ec2Instances && e.awsSubnetId == s.awsSubnetId && r == NodeRef(Ec2P, e.id);
          assert Hosted(d, e);
        }
      }
    }
    PlacedRefsMap(d.subnets, f, refs);
  }

  ghost predicate HostsRef(d: Data, s: Subnet, r: NodeRef)
  {
    exists e :: e in d.ec2Instances && e.awsSubnetId == s.awsSubnetId && r == NodeRef(Ec2P, e.id)
  }

  lemma HostedResources(d: Data, s: Subnet, r: NodeRef)
    ensures (exists x :: x in Summarize(d, s).resources && r == ResourceRef(x)) <==> HostsRef(d, s, r)
  {
    if x :| x in Summarize(d, s).resources && r == ResourceRef(x) {
      FlatMapMember(d.ec2Instances, HostedIn(s), x);
    }
    if HostsRef(d, s, r) {
      var e :| e in d.ec2Instances && e.awsSubnetId == s.awsSubnetId && r == NodeRef(Ec2P, e.id);
      var x := Resource(e.id, Ec2Instance, e.name);
      FlatMapMember(d.ec2Instances, HostedIn(s), x);
      assert r == ResourceRef(x);
    }
  }

  ghost predicate PlacesRow(ps: seq<Placement>, keep: bool, prefix: Prefix, id: string)
  {
    if keep then |ps| == 1 && ItemRefs(ps[0].item) == {NodeRef(prefix, id)} else ps == []
  }

  /** A table whose kept rows are placed once, under one prefix. */
  lemma PlacedTable<R>(rows: seq<R>, f: R -> seq<Placement>, keep: R -> bool, prefix: Prefix, key: R -> string,
                       ids: set<string>)
    requires forall x :: x in rows ==> PlacesRow(f(x), keep(x), prefix, key(x))
    requires forall x :: x in rows && keep(x) ==> key(x) in ids
    requires forall id :: id in ids ==> exists x :: x in rows && keep(x) && key(x) == id
    ensures PlacedRefs(FlatMap(rows, f)) == set id | id in ids :: NodeRef(prefix, id)
  {
    var refs := set id | id in ids :: NodeRef(prefix, id);
    forall x | x in rows ensures PlacedRefs(f(x)) == if keep(x) then {NodeRef(prefix, key(x))} else {} {
      if keep(x) {
        assert f(x) == [f(x)[0]];
        PlacedOne(f(x)[0]);
      }
    }
    PlacedRefsMap(rows, f, refs);
  }

  predicate IsPlacedPrefix(p: Prefix) { !p.Root? && !p.VpcP? && !p.GlobalP? }

  lemma PlacedSecurityGroups(account: string, d: Data)
    ensures PlacedRefs(FlatMap(d.securityGroups, PlaceIn(account, d, SecurityGroups, SecurityGroup))) ==
            RefsUnder(account, d, SecurityGroupP)
  {
    hide PlacedRefs, FlatMap, Home;
    PlacedTable(d.securityGroups, PlaceIn(account, d, SecurityGroups, SecurityGroup), (x: Placed) => true,
                SecurityGroupP, IdOfPlaced, Ids(account, d, SecurityGroupP));
  }

  lemma PlacedRouteTables(account: string, d: Data)
    ensures PlacedRefs(FlatMap(d.routeTables, PlaceRouteTable(account, d))) == RefsUnder(account, d, RouteTableP)
  {
    hide PlacedRefs, FlatMap, Home;
    PlacedTable(d.routeTables, PlaceRouteTable(account, d), (x: RouteTable) => true, RouteTableP, IdOfRouteTable,
                Ids(account, d, RouteTableP));
  }

  lemma PlacedLoadBalancers(account: string, d: Data)
    ensures PlacedRefs(FlatMap(d.loadBalancers, PlaceLb(account, d))) == RefsUnder(account, d, LbP)
  {
    hide PlacedRefs, FlatMap, Home;
    PlacedTable(d.loadBalancers, PlaceLb(account, d), (x: LoadBalancer) => true, LbP, IdOfLb, Ids(account, d, LbP));
  }

  lemma PlacedListeners(account: string, d: Data)
    ensures PlacedRefs(FlatMap(d.listeners, PlaceListener(account, d))) == RefsUnder(account, d, ListenerP)
  {
    hide PlacedRefs, FlatMap, Home;
    PlacedTable(d.listeners, PlaceListener(account, d), (x: Listener) => true, ListenerP, IdOfListener,
                Ids(account, d, ListenerP));
  }

  lemma PlacedClusters(account: string, d: Data)
    ensures PlacedRefs(FlatMap(d.clusters, PlaceCluster(account))) == RefsUnder(account, d, ClusterP)
  {
    hide PlacedRefs, FlatMap, Home;
    PlacedTable(d.clusters, PlaceCluster(account), (x: Cluster) => true, ClusterP, IdOfCluster,
                Ids(account, d, ClusterP));
  }

  lemma PlacedTaskDefs(account: string, d: Data)
    ensures PlacedRefs(FlatMap(d.taskDefs, PlaceTaskDef(account, d))) == RefsUnder(account, d, TaskDefP)
  {
    hide PlacedRefs, FlatMap, Home;
    PlacedTable(d.taskDefs, PlaceTaskDef(account, d), (x: TaskDef) => InUse(d, x.id), TaskDefP, IdOfTaskDef,
                Ids(account, d, TaskDefP));
  }

  lemma PlacedServices(account: string, d: Data)
    ensures PlacedRefs(FlatMap(d.services, PlaceService(account))) == RefsUnder(account, d, ServiceP)
  {
    hide PlacedRefs, FlatMap, Home;
    PlacedTable(d.services, PlaceService(account), (x: Service) => true, ServiceP, IdOfService,
                Ids(account, d, ServiceP));
  }

  lemma PlacedRds(account: string, d: Data)
    ensures PlacedRefs(FlatMap(d.rds, PlaceIn(account, d, Databases, RdsInstance))) == RefsUnder(account, d, RdsP)
  {
    hide PlacedRefs, FlatMap, Home;
    PlacedTable(d.rds, PlaceIn(account, d, Databases, RdsInstance), (x: Placed) => true, RdsP, IdOfPlaced,
                Ids(account, d, RdsP));
  }

  lemma PlacedEks(account: string, d: Data)
    ensures PlacedRefs(FlatMap(d.eks, PlaceIn(account, d, Containers, EksCluster))) == RefsUnder(account, d, EksP)
  {
    hide PlacedRefs, FlatMap, Home;
    PlacedTable(d.eks, PlaceIn(account, d, Containers, EksCluster), (x: Placed) => true, EksP, IdOfPlaced,
                Ids(account, d, EksP));
  }

  lemma PlacedLambdas(account: string, d: Data)
    ensures PlacedRefs(FlatMap(d.lambdas, PlaceIn(account, d, Serverless, LambdaFunction))) == RefsUnder(account, d,
        LambdaP)
  {
    hide PlacedRefs, FlatMap, Home;
    PlacedTable(d.lambdas, PlaceIn(account, d, Serverless, LambdaFunction), (x: Placed) => true, LambdaP, IdOfPlaced,
                Ids(account, d, LambdaP));
  }

  lemma PlacedCaches(account: string, d: Data)
    ensures PlacedRefs(FlatMap(d.caches, PlaceIn(account, d, Caches, ElastiCacheCluster))) == RefsUnder(account, d,
        CacheP)
  {
    hide PlacedRefs, FlatMap, Home;
    PlacedTable(d.caches, PlaceIn(account, d, Caches, ElastiCacheCluster), (x: Placed) => true, CacheP, IdOfPlaced,
                Ids(account, d, CacheP));
  }

  /** The placements push exactly the expected nodes. */
  lemma PlacedExact(account: string, d: Data, r: NodeRef)
    ensures r in PlacedRefs(Placements(account, d)) <==> IsPlacedPrefix(r.prefix) && r.id in Ids(account, d, r.prefix)
  {
    PlacedSplit(account, d);
    PlacedSubnets(account, d);
    PlacedSecurityGroups(account, d);
    PlacedRouteTables(account, d);
    PlacedLoadBalancers(account, d);
    PlacedListeners(account, d);
    PlacedClusters(account, d);
    PlacedTaskDefs(account, d);
    PlacedServices(account, d);
    PlacedRds(account, d);
    PlacedEks(account, d);
    PlacedLambdas(account, d);
    PlacedCaches(account, d);
    hide PlacedRefs, FlatMap, Ids, Placements, RefsUnder;
    PrefixUnion(account, d, r);
  }

  lemma RefUnder(account: string, d: Data, r: NodeRef, p: Prefix)
    ensures r in RefsUnder(account, d, p) <==> r.prefix == p && r.id in Ids(account, d, p)
  {
  }

  lemma PrefixUnion(account: string, d: Data, r: NodeRef)
    ensures r in RefsUnder(account, d, SubnetP) + RefsUnder(account, d, Ec2P) + RefsUnder(account, d, SecurityGroupP)
                 + RefsUnder(account, d, RouteTableP) + RefsUnder(account, d, LbP) + RefsUnder(account, d, ListenerP)
                 + RefsUnder(account, d, RdsP) + RefsUnder(account, d, ClusterP) + RefsUnder(account, d, TaskDefP)
                 + RefsUnder(account, d, ServiceP) + RefsUnder(account, d, EksP) + RefsUnder(account, d, LambdaP)
                 + RefsUnder(account, d, CacheP)
            <==> IsPlacedPrefix(r.prefix) && r.id in Ids(account, d, r.prefix)
  {
    hide Ids, RefsUnder;
    RefUnder(account, d, r, SubnetP); RefUnder(account, d, r, Ec2P); RefUnder(account, d, r, SecurityGroupP);
    RefUnder(account, d, r, RouteTableP); RefUnder(account, d, r, LbP); RefUnder(account, d, r, ListenerP);
    RefUnder(account, d, r, RdsP); RefUnder(account, d, r, ClusterP); RefUnder(account, d, r, TaskDefP);
    RefUnder(account, d, r, ServiceP); RefUnder(account, d, r, EksP); RefUnder(account, d, r, LambdaP);
    RefUnder(account, d, r, CacheP);
  }

  lemma PlacedSplit(account: string, d: Data)
    ensures PlacedRefs(Placements(account, d)) ==
            PlacedRefs(FlatMap(d.subnets, PlaceSubnet(account, d)))
            + PlacedRefs(FlatMap(d.securityGroups, PlaceIn(account, d, SecurityGroups, SecurityGroup)))
            + PlacedRefs(FlatMap(d.routeTables, PlaceRouteTable(account, d)))
            + PlacedRefs(FlatMap(d.loadBalancers, PlaceLb(account, d)))
            + PlacedRefs(FlatMap(d.listeners, PlaceListener(account, d)))
            + PlacedRefs(FlatMap(d.rds, PlaceIn(account, d, Databases, RdsInstance)))
            + PlacedRefs(FlatMap(d.clusters, PlaceCluster(account)))
            + PlacedRefs(FlatMap(d.taskDefs, PlaceTaskDef(account, d)))
            + PlacedRefs(FlatMap(d.services, PlaceService(account)))
            + PlacedRefs(FlatMap(d.eks, PlaceIn(account, d, Containers, EksCluster)))
            + PlacedRefs(FlatMap(d.lambdas, PlaceIn(account, d, Serverless, LambdaFunction)))
            + PlacedRefs(FlatMap(d.caches, PlaceIn(account, d, Caches, ElastiCacheCluster)))
  {
    hide PlacedRefs, FlatMap;
    var s1 := FlatMap(d.subnets, PlaceSubnet(account, d))
              + FlatMap(d.securityGroups, PlaceIn(account, d, SecurityGroups, SecurityGroup));
    var s2 := s1 + FlatMap(d.routeTables, PlaceRouteTable(account, d));
    var s3 := s2 + FlatMap(d.loadBalancers, PlaceLb(account, d));
    var s4 := s3 + FlatMap(d.listeners, PlaceListener(account, d));
    var s5 := s4 + FlatMap(d.rds, PlaceIn(account, d, Databases, RdsInstance));
    var s6 := s5 + FlatMap(d.clusters, PlaceCluster(account));
    var s7 := s6 + FlatMap(d.taskDefs, PlaceTaskDef(account, d));
    var s8 := s7 + FlatMap(d.services, PlaceService(account));
    var s9 := s8 + FlatMap(d.eks, PlaceIn(account, d, Containers, EksCluster));
    var s10 := s9 + FlatMap(d.lambdas, PlaceIn(account, d, Serverless, LambdaFunction));
    PlacedConcat(FlatMap(d.subnets, PlaceSubnet(account, d)),
                 FlatMap(d.securityGroups, PlaceIn(account, d, SecurityGroups, SecurityGroup)));
    PlacedConcat(s1, FlatMap(d.routeTables, PlaceRouteTable(account, d)));
    PlacedConcat(s2, FlatMap(d.loadBalancers, PlaceLb(account, d)));
    PlacedConcat(s3, FlatMap(d.listeners, PlaceListener(account, d)));
    PlacedConcat(s4, FlatMap(d.rds, PlaceIn(account, d, Databases, RdsInstance)));
    PlacedConcat(s5, FlatMap(d.clusters, PlaceCluster(account)));
    PlacedConcat(s6, FlatMap(d.taskDefs, PlaceTaskDef(account, d)));
    PlacedConcat(s7, FlatMap(d.services, PlaceService(account)));
    PlacedConcat(s8, FlatMap(d.eks, PlaceIn(account, d, Containers, EksCluster)));
    PlacedConcat(s9, FlatMap(d.lambdas, PlaceIn(account, d, Serverless, LambdaFunction)));
    PlacedConcat(s10, FlatMap(d.caches, PlaceIn(account, d, Caches, ElastiCacheCluster)));
  }

  // ----- from pushes to placements -----

  lemma NodeRefsConcat(a: seq<Push>, b: seq<Push>)
    ensures NodeRefs(a + b) == NodeRefs(a) + NodeRefs(b)
  {
  }

  lemma NodeRefsMap<T>(s: seq<T>, f: T -> seq<Push>, r: NodeRef)
    ensures r in NodeRefs(FlatMap(s, f)) <==> exists x :: x in s && r in NodeRefs(f(x))
  {
    if r in NodeRefs(FlatMap(s, f)) {
      var p :| p in FlatMap(s, f) && p.PushNode? && p.ref == r;
      FlatMapMember(s, f, p);
    }
    if x :| x in s && r in NodeRefs(f(x)) {
      var p :| p in f(x) && p.PushNode? && p.ref == r;
      FlatMapMember(s, f, p);
    }
  }

  function RefsOf(rs: seq<Resource>): set<NodeRef> { set r | r in rs :: ResourceRef(r) }

  lemma SubnetNodes(d: Data, vpcId: string, s: SubnetSummary)
    ensures NodeRefs(SubnetPushes(d, vpcId)(s)) == {SubnetRef(s.id)} + RefsOf(s.resources)
  {
    var hosts := FlatMap(s.resources, HostPushes(s.id));
    forall r ensures r in NodeRefs(hosts) <==> r in RefsOf(s.resources) {
      NodeRefsMap(s.resources, HostPushes(s.id), r);
      forall x: Resource ensures NodeRefs(HostPushes(s.id)(x)) == {ResourceRef(x)} {
        assert HostPushes(s.id)(x)[0] in HostPushes(s.id)(x);
      }
    }
    var first := [PushNode(SubnetRef(s.id), SubnetKind, s.name),
                  PushEdge(VpcRef(vpcId), SubnetRef(s.id), "contains", false)];
    assert first[0] in first;
    var second := if SubnetOwner(d, s.id) == Some(vpcId)
                  then [PushEdge(VpcRef(vpcId), SubnetRef(s.id), "network", false)] else [];
    assert SubnetPushes(d, vpcId)(s) == first + second + hosts;
  }

  lemma ResourceNodes(rs: seq<Resource>, f: Resource -> seq<Push>)
    requires forall x :: NodeRefs(f(x)) == {ResourceRef(x)}
    ensures NodeRefs(FlatMap(rs, f)) == RefsOf(rs)
  {
    forall r ensures r in NodeRefs(FlatMap(rs, f)) <==> r in RefsOf(rs) {
      NodeRefsMap(rs, f, r);
    }
  }

  lemma ContainedNodes(vpcId: string, rs: seq<Resource>, relationship: string)
    ensures NodeRefs(FlatMap(rs, ContainedPushes(vpcId, relationship))) == RefsOf(rs)
  {
    var f := ContainedPushes(vpcId, relationship);
    forall x: Resource ensures NodeRefs(f(x)) == {ResourceRef(x)} {
      assert f(x)[0] in f(x);
    }
    ResourceNodes(rs, f);
  }

  lemma LbNodes(d: Data, vpcId: string, rs: seq<Resource>)
    ensures NodeRefs(FlatMap(rs, LbPushes(d, vpcId))) == RefsOf(rs)
  {
    var f := LbPushes(d, vpcId);
    forall x: Resource ensures NodeRefs(f(x)) == {ResourceRef(x)} {
      assert f(x)[0] in f(x);
    }
    ResourceNodes(rs, f);
  }

  ghost predicate HasItem(b: Bucket, item: Item)
  {
    match item
    case InSlot(slot, r) => r in b.Get(slot)
    case InSubnets(s) => s in b.subnets
  }

  lemma SubnetsNodes(d: Data, b: Bucket, r: NodeRef)
    ensures r in NodeRefs(FlatMap(b.subnets, SubnetPushes(d, b.id))) <==>
              exists s :: s in b.subnets && r in ItemRefs(InSubnets(s))
  {
    NodeRefsMap(b.subnets, SubnetPushes(d, b.id), r);
    forall s ensures NodeRefs(SubnetPushes(d, b.id)(s)) == ItemRefs(InSubnets(s)) { SubnetNodes(d, b.id, s); }
  }

  ghost predicate InBucket(b: Bucket, r: NodeRef)
  {
    || r in RefsOf(b.routeTables) || r in RefsOf(b.securityGroups) || r in RefsOf(b.loadBalancers)
       || r in RefsOf(b.databases)
    || r in RefsOf(b.caches) || r in RefsOf(b.containers) || r in RefsOf(b.serverless)
  }

  lemma BucketRefsItems(b: Bucket, r: NodeRef)
    ensures InBucket(b, r) <==> exists slot, x :: x in b.Get(slot) && r == ResourceRef(x)
  {
    assert && b.Get(RouteTables) == b.routeTables && b.Get(SecurityGroups) == b.securityGroups
           && b.Get(LoadBalancers) == b.loadBalancers && b.Get(Databases) == b.databases && b.Get(Caches) == b.caches
           && b.Get(Containers) == b.containers && b.Get(Serverless) == b.serverless;
  }

  lemma BucketNodes(d: Data, b: Bucket, r: NodeRef)
    ensures r in NodeRefs(BucketPushes(d)(b)) <==>
              r == VpcRef(b.id) || exists item :: HasItem(b, item) && r in ItemRefs(item)
  {
    BucketNodeSets(d, b);
    SubnetsNodes(d, b, r);
    BucketRefsItems(b, r);
    hide NodeRefs, RefsOf, BucketPushes, FlatMap;
    if s :| s in b.subnets && r in ItemRefs(InSubnets(s)) {
      assert HasItem(b, InSubnets(s));
    }
    if slot, x :| x in b.Get(slot) && r == ResourceRef(x) {
      assert HasItem(b, InSlot(slot, x)) && r in ItemRefs(InSlot(slot, x));
    }
  }

  lemma BucketNodeSets(d: Data, b: Bucket)
    ensures NodeRefs(BucketPushes(d)(b)) ==
            {VpcRef(b.id)} + NodeRefs(FlatMap(b.subnets, SubnetPushes(d, b.id)))
            + RefsOf(b.routeTables) + RefsOf(b.securityGroups) + RefsOf(b.loadBalancers) + RefsOf(b.databases)
            + RefsOf(b.caches) + RefsOf(b.containers) + RefsOf(b.serverless)
  {
    ContainedNodes(b.id, b.routeTables, "has-route-table");
    ContainedNodes(b.id, b.securityGroups, "has-security-group");
    LbNodes(d, b.id, b.loadBalancers);
    ContainedNodes(b.id, b.databases, "contains-database");
    ContainedNodes(b.id, b.caches, "contains-cache");
    ContainedNodes(b.id, b.containers, "contains-workload");
    ContainedNodes(b.id, b.serverless, "contains-serverless");
    var first := [PushNode(VpcRef(b.id), VpcKind, b.name)];
    assert NodeRefs(first) == {VpcRef(b.id)} by { assert first[0] in first; }
    NodeRefs9(first, FlatMap(b.subnets, SubnetPushes(d, b.id)),
              FlatMap(b.routeTables, ContainedPushes(b.id, "has-route-table")),
              FlatMap(b.securityGroups, ContainedPushes(b.id, "has-security-group")),
              FlatMap(b.loadBalancers, LbPushes(d, b.id)),
              FlatMap(b.databases, ContainedPushes(b.id, "contains-database")),
              FlatMap(b.caches, ContainedPushes(b.id, "contains-cache")),
              FlatMap(b.containers, ContainedPushes(b.id, "contains-workload")),
              FlatMap(b.serverless, ContainedPushes(b.id, "contains-serverless")));
    hide NodeRefs, FlatMap, RefsOf;
  }

  lemma NodeRefs9(a: seq<Push>, b: seq<Push>, c: seq<Push>, d: seq<Push>, e: seq<Push>, f: seq<Push>, g: seq<Push>,
                  h: seq<Push>, i: seq<Push>)
    ensures NodeRefs(a + b + c + d + e + f + g + h + i) ==
            NodeRefs(a) + NodeRefs(b) + NodeRefs(c) + NodeRefs(d) + NodeRefs(e) + NodeRefs(f) + NodeRefs(g)
              + NodeRefs(h) + NodeRefs(i)
  {
    hide NodeRefs;
    NodeRefsConcat(a, b);
    NodeRefsConcat(a + b, c);
    NodeRefsConcat(a + b + c, d);
    NodeRefsConcat(a + b + c + d, e);
    NodeRefsConcat(a + b + c + d + e, f);
    NodeRefsConcat(a + b + c + d + e + f, g);
    NodeRefsConcat(a + b + c + d + e + f + g, h);
    NodeRefsConcat(a + b + c + d + e + f + g + h, i);
  }

  /** A bucket holds exactly the items placed at its id. */
  lemma {:induction false} FillExact(b: Bucket, log: seq<Placement>, item: Item)
    ensures HasItem(Fill(b, log), item) <==> HasItem(b, item) || Placement(b.id, item) in log
  {
    if log != [] {
      var front, last := log[..|log| - 1], log[|log| - 1];
      FillExact(b, front, item);
      assert log == front + [last];
    }
  }

  lemma EmptyBucketHolds(account: string, d: Data, id: string, item: Item)
    ensures !HasItem(Base(account, d, id), item)
  {
  }

  /** Every resource is placed in a listed VPC's bucket or in the unassigned one. */
  lemma PlacementsHomed(account: string, d: Data)
    ensures HomesKnown(account, d, Placements(account, d))
  {
    forall p | p in Placements(account, d) ensures p.home in VpcIds(d) || p.home == UnassignedId(account) {
      PlacementOrigin(account, d, p);
    }
  }

  lemma PlacementOrigin(account: string, d: Data, p: Placement)
    requires p in Placements(account, d)
    ensures p.home in VpcIds(d) || p.home == UnassignedId(account)
  {
    FlatMapMember(d.subnets, PlaceSubnet(account, d), p);
    FlatMapMember(d.securityGroups, PlaceIn(account, d, SecurityGroups, SecurityGroup), p);
    FlatMapMember(d.routeTables, PlaceRouteTable(account, d), p);
    FlatMapMember(d.loadBalancers, PlaceLb(account, d), p);
    FlatMapMember(d.listeners, PlaceListener(account, d), p);
    FlatMapMember(d.rds, PlaceIn(account, d, Databases, RdsInstance), p);
    FlatMapMember(d.clusters, PlaceCluster(account), p);
    FlatMapMember(d.taskDefs, PlaceTaskDef(account, d), p);
    FlatMapMember(d.services, PlaceService(account), p);
    FlatMapMember(d.eks, PlaceIn(account, d, Containers, EksCluster), p);
    FlatMapMember(d.lambdas, PlaceIn(account, d, Serverless, LambdaFunction), p);
    FlatMapMember(d.caches, PlaceIn(account, d, Caches, ElastiCacheCluster), p);
    hide FlatMap, VpcIds, LbVpc, Summarize;
  }

  ghost predicate PlacedAt(log: seq<Placement>, id: string, r: NodeRef)
  {
    exists item :: Placement(id, item) in log && r in ItemRefs(item)
  }

  lemma FilledNodes(account: string, d: Data, log: seq<Placement>, id: string, r: NodeRef)
    requires id in VpcIds(d) || id == UnassignedId(account)
    ensures r in NodeRefs(BucketPushes(d)(Fill(Base(account, d, id), log))) <==> r == VpcRef(id) || PlacedAt(log, id, r)
  {
    var base := Base(account, d, id);
    var b := Fill(base, log);
    BaseId(account, d, id);
    BucketNodes(d, b, r);
    forall item ensures HasItem(b, item) <==> Placement(id, item) in log {
      FillExact(base, log, item);
      EmptyBucketHolds(account, d, id, item);
    }
    hide HasItem, ItemRefs, BucketPushes, NodeRefs;
    if PlacedAt(log, id, r) {
      var item :| Placement(id, item) in log && r in ItemRefs(item);
      assert HasItem(b, item);
    }
  }

  lemma BucketsInOrder(account: string, d: Data, b: Bucket)
    ensures var log := Placements(account, d);
            b in BuildModel(account, d).vpcs <==>
                exists id :: id in Order(account, d, log) && b == Fill(Base(account, d, id), log)
  {
    FlatMapMember(Order(account, d, Placements(account, d)), Filled(account, d, Placements(account, d)), b);
    hide Placements, Base, Order;
  }

  lemma BucketPresent(account: string, d: Data, id: string, r: NodeRef)
    requires id in Ids(account, d, VpcP)
    requires r == VpcRef(id) || PlacedAt(Placements(account, d), id, r)
    ensures r in NodeRefs(FlatMap(BuildModel(account, d).vpcs, BucketPushes(d)))
  {
    hide Placements, FlatMap, NodeRefs, BucketPushes, Base, Fill, ItemRefs, BuildModel, Order, VpcIds, HasUnassigned;
    var log := Placements(account, d);
    var b := Fill(Base(account, d, id), log);
    OrderMember(account, d, log, id);
    FilledNodes(account, d, log, id, r);
    BucketsInOrder(account, d, b);
    NodeRefsMap(BuildModel(account, d).vpcs, BucketPushes(d), r);
  }

  lemma BucketAccounted(account: string, d: Data, r: NodeRef) returns (id: string)
    requires r in NodeRefs(FlatMap(BuildModel(account, d).vpcs, BucketPushes(d)))
    ensures id in Ids(account, d, VpcP) && (r == VpcRef(id) || PlacedAt(Placements(account, d), id, r))
  {
    hide Placements, FlatMap, NodeRefs, BucketPushes, Base, Fill, ItemRefs, BuildModel, Order, VpcIds, HasUnassigned;
    var log := Placements(account, d);
    var bs := BuildModel(account, d).vpcs;
    NodeRefsMap(bs, BucketPushes(d), r);
    var b :| b in bs && r in NodeRefs(BucketPushes(d)(b));
    BucketsInOrder(account, d, b);
    id :| id in Order(account, d, log) && b == Fill(Base(account, d, id), log);
    OrderMember(account, d, log, id);
    FilledNodes(account, d, log, id, r);
  }

  /** The nodes of the buckets: one per bucket, and those of everything placed. */
  lemma BucketsNodes(account: string, d: Data, r: NodeRef)
    ensures r in NodeRefs(FlatMap(BuildModel(account, d).vpcs, BucketPushes(d))) <==>
            (r.prefix == VpcP && r.id in Ids(account, d, VpcP)) || r in PlacedRefs(Placements(account, d))
  {
    hide Placements, FlatMap, NodeRefs, BucketPushes, Base, Fill, ItemRefs, BuildModel;
    var log := Placements(account, d);
    if r in PlacedRefs(log) {
      var p :| p in log && r in ItemRefs(p.item);
      assert Placement(p.home, p.item) in log;
      PlacementsHomed(account, d);
      BucketPresent(account, d, p.home, r);
    }
    if r.prefix == VpcP && r.id in Ids(account, d, VpcP) {
      BucketPresent(account, d, r.id, r);
    }
    if r in NodeRefs(FlatMap(BuildModel(account, d).vpcs, BucketPushes(d))) {
      var id := BucketAccounted(account, d, r);
    }
  }

  lemma CollectionNodes(m: Model, k: Inventory.GlobalKind)
    ensures NodeRefs(CollectionPushes(m)(k)) == RefsOf(m.globals(k))
  {
    var f := GlobalPushes(m.cloudAccountId, Containment(k));
    forall x: Resource ensures NodeRefs(f(x)) == {ResourceRef(x)} {
      assert f(x)[0] in f(x);
    }
    ResourceNodes(m.globals(k), f);
  }

  lemma GlobalRefs(d: Data, k: Inventory.GlobalKind, r: NodeRef)
    ensures r in RefsOf(GlobalResources(d)(k)) <==>
              r.prefix == GlobalP(k) && exists g :: g in d.globals(k) && g.id == r.id
  {
    hide FlatMap;
    if r in RefsOf(GlobalResources(d)(k)) {
      var x :| x in GlobalResources(d)(k) && r == ResourceRef(x);
      FlatMapMember(d.globals(k), AsGlobal(k), x);
    }
    if g :| r.prefix == GlobalP(k) && g in d.globals(k) && g.id == r.id {
      var x := Resource(g.id, GlobalType(k), g.name);
      FlatMapMember(d.globals(k), AsGlobal(k), x);
      assert x in AsGlobal(k)(g);
      assert r == ResourceRef(x);
    }
  }

  lemma GlobalNodes(account: string, d: Data, k: Inventory.GlobalKind, r: NodeRef)
    ensures r in NodeRefs(CollectionPushes(BuildModel(account, d))(k)) <==>
              r.prefix == GlobalP(k) && r.id in Ids(account, d, r.prefix)
  {
    hide Placements, FlatMap, NodeRefs, CollectionPushes, RefsOf, GlobalResources;
    CollectionNodes(BuildModel(account, d), k);
    GlobalRefs(d, k, r);
  }

  lemma GlobalsNodes(account: string, d: Data, r: NodeRef)
    ensures r in NodeRefs(FlatMap(GLOBAL_ORDER, CollectionPushes(BuildModel(account, d)))) <==>
            r.prefix.GlobalP? && r.id in Ids(account, d, r.prefix)
  {
    hide Placements, Fill, Base, Order, FlatMap, Ids, NodeRefs, CollectionPushes, BuildModel;
    NodeRefsMap(GLOBAL_ORDER, CollectionPushes(BuildModel(account, d)), r);
    forall k { GlobalNodes(account, d, k, r); }
    if r.prefix.GlobalP? {
      AllKindsListed(r.prefix.kind);
    }
  }

  lemma AllKindsListed(k: Inventory.GlobalKind)
    ensures k in GLOBAL_ORDER
  {
  }

  ghost predicate EdgesOnly(ps: seq<Push>)
  {
    forall p :: p in ps ==> p.PushEdge?
  }

  lemma EdgesOnlyMap<T>(s: seq<T>, f: T -> seq<Push>)
    requires forall x :: x in s ==> EdgesOnly(f(x))
    ensures EdgesOnly(FlatMap(s, f))
  {
    forall p | p in FlatMap(s, f) ensures p.PushEdge? {
      FlatMapMember(s, f, p);
    }
  }

  lemma CrossLinksOnlyEdges(m: Model, d: Data)
    ensures EdgesOnly(FlatMap(d.routeTables, RoutePushes(d))) && EdgesOnly(FlatMap(d.loadBalancers, LbSubnetPushes(d)))
  {
    forall rt | rt in d.routeTables ensures EdgesOnly(RoutePushes(d)(rt)) {
      EdgesOnlyMap(rt.associations, AssociationPushes(d, rt.id));
    }
    EdgesOnlyMap(d.routeTables, RoutePushes(d));
    forall lb | lb in d.loadBalancers ensures EdgesOnly(LbSubnetPushes(d)(lb)) {
      EdgesOnlyMap(lb.subnetIds, AttachPushes(d, lb.id));
    }
    EdgesOnlyMap(d.loadBalancers, LbSubnetPushes(d));
  }

  lemma ServiceOnlyEdges(d: Data, s: Service)
    ensures EdgesOnly(ServicePushes(d)(s))
  {
    EdgesOnlyMap(s.subnets, RunsInPushes(d, s.id));
    EdgesOnlyMap(s.loadBalancers, TrafficPushes(d, s.id));
    TaskDefOnlyEdges(d, s);
    hide FlatMap, InUse, TaskDefPushes;
  }

  lemma TaskDefOnlyEdges(d: Data, s: Service)
    ensures EdgesOnly(TaskDefPushes(d, s))
  {
  }

  lemma ServicesOnlyEdges(d: Data)
    ensures EdgesOnly(FlatMap(d.services, ServicePushes(d)))
  {
    hide FlatMap, EdgesOnly, ServicePushes;
    forall s | s in d.services ensures EdgesOnly(ServicePushes(d)(s)) { ServiceOnlyEdges(d, s); }
    EdgesOnlyMap(d.services, ServicePushes(d));
  }

  lemma LinksOnlyEdges(sources: seq<Resource>, targets: seq<Resource>, relationship: string)
    ensures EdgesOnly(FlatMap(sources, LinkAll(targets, relationship)))
  {
    forall x | x in sources ensures EdgesOnly(LinkAll(targets, relationship)(x)) {
      EdgesOnlyMap(targets, LinkTo(ResourceRef(x), relationship));
    }
    EdgesOnlyMap(sources, LinkAll(targets, relationship));
  }

  lemma EdgesOnlyNoNodes(ps: seq<Push>)
    requires EdgesOnly(ps)
    ensures NodeRefs(ps) == {}
  {
  }

  lemma RootNode(account: string)
    ensures NodeRefs([PushNode(RootRef(account), FlowGraph.GlobalKind, "Global Resources")]) == {RootRef(account)}
  {
    var s := [PushNode(RootRef(account), FlowGraph.GlobalKind, "Global Resources")];
    assert s[0] in s;
  }

  lemma ScriptNodes(m: Model, d: Data)
    ensures NodeRefs(Script(m, d)) == {RootRef(m.cloudAccountId)} + NodeRefs(FlatMap(m.vpcs, BucketPushes(d)))
                                      + NodeRefs(FlatMap(GLOBAL_ORDER, CollectionPushes(m)))
  {
    hide FlatMap, NodeRefs, EdgesOnly;
    RootNode(m.cloudAccountId);
    CrossLinksOnlyEdges(m, d);
    ServicesOnlyEdges(d);
    LinksOnlyEdges(m.globals(Route53), m.globals(CloudFront), "dns");
    LinksOnlyEdges(m.globals(CloudFront), FlatMap(m.vpcs, LbsOf), "http-s");
    LinksOnlyEdges(m.globals(ApiGateways), FlatMap(m.vpcs, LambdasOf), "invoke");
    var s0 := [PushNode(RootRef(m.cloudAccountId), FlowGraph.GlobalKind, "Global Resources")];
    var s1 := FlatMap(m.vpcs, BucketPushes(d));
    var s2 := FlatMap(d.routeTables, RoutePushes(d));
    var s3 := FlatMap(d.loadBalancers, LbSubnetPushes(d));
    var s4 := FlatMap(d.services, ServicePushes(d));
    var s5 := FlatMap(GLOBAL_ORDER, CollectionPushes(m));
    var s6 := FlatMap(m.globals(Route53), LinkAll(m.globals(CloudFront), "dns"));
    var s7 := FlatMap(m.globals(CloudFront), LinkAll(FlatMap(m.vpcs, LbsOf), "http-s"));
    var s8 := FlatMap(m.globals(ApiGateways), LinkAll(FlatMap(m.vpcs, LambdasOf), "invoke"));
    EdgesOnlyNoNodes(s2);
    EdgesOnlyNoNodes(s3);
    EdgesOnlyNoNodes(s4);
    EdgesOnlyNoNodes(s6);
    EdgesOnlyNoNodes(s7);
    EdgesOnlyNoNodes(s8);
    NodeRefs9(s0, s1, s2, s3, s4, s5, s6, s7, s8);
  }

  lemma RootIds(account: string, d: Data)
    ensures Ids(account, d, Root) == {account} && BuildModel(account, d).cloudAccountId == account
  {
    hide Placements, FlatMap;
  }

  /** The nodes of the graph are exactly the expected ones, prefix by prefix. */
  lemma RefsExact(account: string, d: Data, r: NodeRef)
    ensures r in NodeRefs(ScriptOf(account, d)) <==> r.id in Ids(account, d, r.prefix)
  {
    RootIds(account, d);
    hide FlatMap, Placements, NodeRefs, Script, PlacedRefs, Ids, BuildModel;
    ScriptNodes(BuildModel(account, d), d);
    BucketsNodes(account, d, r);
    PlacedExact(account, d, r);
    GlobalsNodes(account, d, r);
  }
}
