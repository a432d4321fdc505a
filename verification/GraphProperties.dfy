/** The main results about the compiled graph: closure, reachability, conservation. */
module GraphProperties {
  import opened Seqs
  import opened Inventory
  import opened ArchitectureModel
  import opened FlowGraph
  import opened GraphCompiler
  import opened GraphTheorems
  import opened AccountNodes

  // ----- every edge push ends in a pushed node -----

  /** Sources that may be missing: the load balancer a listener names. */
  ghost predicate ListenerSource(d: Data, r: NodeRef)
  {
    exists l :: l in d.listeners && r == LbNode(l.loadBalancerId)
  }

  ghost predicate EndsIn(ps: seq<Push>, refs: set<NodeRef>, d: Data)
  {
    forall p :: p in ps && p.PushEdge? ==> PushEndsIn(p, refs, d)
  }

  /** Both ends are in refs, save a listener's load balancer, and the relationship holds no ':'. */
  ghost predicate PushEndsIn(p: Push, refs: set<NodeRef>, d: Data)
    requires p.PushEdge?
  {
    p.target in refs && (p.source in refs || ListenerSource(d, p.source)) && ':' !in p.relationship
  }

  lemma EndsInMap<T>(s: seq<T>, f: T -> seq<Push>, refs: set<NodeRef>, d: Data)
    requires forall x :: x in s ==> EndsIn(f(x), refs, d)
    ensures EndsIn(FlatMap(s, f), refs, d)
  {
    forall p | p in FlatMap(s, f) && p.PushEdge? ensures PushEndsIn(p, refs, d) {
      FlatMapMember(s, f, p);
    }
  }

  lemma ContainedEnds(vpcId: string, rs: seq<Resource>, relationship: string, refs: set<NodeRef>, d: Data)
    requires VpcRef(vpcId) in refs && RefsOf(rs) <= refs && ':' !in relationship
    ensures EndsIn(FlatMap(rs, ContainedPushes(vpcId, relationship)), refs, d)
  {
    forall x | x in rs ensures EndsIn(ContainedPushes(vpcId, relationship)(x), refs, d) {
      assert ResourceRef(x) in RefsOf(rs);
    }
    EndsInMap(rs, ContainedPushes(vpcId, relationship), refs, d);
  }

  lemma LbEnds(d: Data, vpcId: string, rs: seq<Resource>, refs: set<NodeRef>)
    requires VpcRef(vpcId) in refs && RefsOf(rs) <= refs
    ensures EndsIn(FlatMap(rs, LbPushes(d, vpcId)), refs, d)
  {
    forall x | x in rs ensures EndsIn(LbPushes(d, vpcId)(x), refs, d) {
      assert ResourceRef(x) in RefsOf(rs);
    }
    EndsInMap(rs, LbPushes(d, vpcId), refs, d);
  }

  lemma SubnetEnds(d: Data, vpcId: string, s: SubnetSummary, refs: set<NodeRef>)
    requires VpcRef(vpcId) in refs && SubnetRef(s.id) in refs && RefsOf(s.resources) <= refs
    ensures EndsIn(SubnetPushes(d, vpcId)(s), refs, d)
  {
    forall x | x in s.resources ensures EndsIn(HostPushes(s.id)(x), refs, d) {
      assert ResourceRef(x) in RefsOf(s.resources);
    }
    EndsInMap(s.resources, HostPushes(s.id), refs, d);
    hide FlatMap, SubnetOwner;
  }

  lemma SubnetsEnd(d: Data, b: Bucket, refs: set<NodeRef>)
    requires NodeRefs(BucketPushes(d)(b)) <= refs
    ensures EndsIn(FlatMap(b.subnets, SubnetPushes(d, b.id)), refs, d)
  {
    hide FlatMap, NodeRefs, BucketPushes, EndsIn, SubnetPushes;
    BucketNodeSets(d, b);
    forall s | s in b.subnets ensures EndsIn(SubnetPushes(d, b.id)(s), refs, d) {
      SubnetNodes(d, b.id, s);
      forall r | r in NodeRefs(SubnetPushes(d, b.id)(s)) ensures r in refs {
        NodeRefsMap(b.subnets, SubnetPushes(d, b.id), r);
      }
      assert SubnetRef(s.id) in NodeRefs(SubnetPushes(d, b.id)(s));
      SubnetEnds(d, b.id, s, refs);
    }
    EndsInMap(b.subnets, SubnetPushes(d, b.id), refs, d);
  }

  lemma BucketEnds(d: Data, b: Bucket, refs: set<NodeRef>)
    requires NodeRefs(BucketPushes(d)(b)) <= refs
    ensures EndsIn(BucketPushes(d)(b), refs, d)
  {
    hide FlatMap, NodeRefs, RefsOf;
    BucketNodeSets(d, b);
    assert VpcRef(b.id) in refs;
    SubnetsEnd(d, b, refs);
    ContainedEnds(b.id, b.routeTables, "has-route-table", refs, d);
    ContainedEnds(b.id, b.securityGroups, "has-security-group", refs, d);
    LbEnds(d, b.id, b.loadBalancers, refs);
    ContainedEnds(b.id, b.databases, "contains-database", refs, d);
    ContainedEnds(b.id, b.caches, "contains-cache", refs, d);
    ContainedEnds(b.id, b.containers, "contains-workload", refs, d);
    ContainedEnds(b.id, b.serverless, "contains-serverless", refs, d);
  }

  // ----- cross links -----

  /** refs holds the expected nodes of the inventory. */
  ghost predicate Covers(account: string, d: Data, refs: set<NodeRef>)
  {
    forall p, id :: id in Ids(account, d, p) ==> NodeRef(p, id) in refs
  }

  lemma RouteEnds(account: string, d: Data, refs: set<NodeRef>)
    requires Covers(account, d, refs)
    ensures EndsIn(FlatMap(d.routeTables, RoutePushes(d)), refs, d)
  {
    hide FlatMap, Placements;
    forall rt | rt in d.routeTables ensures EndsIn(RoutePushes(d)(rt), refs, d) {
      assert rt.id in Ids(account, d, RouteTableP);
      forall a | a in rt.associations ensures EndsIn(AssociationPushes(d, rt.id)(a), refs, d) {
        var s := AssociatedSubnet(d, a.subnetId);
        if s.Some? { assert s.value.id in Ids(account, d, SubnetP); }
      }
      EndsInMap(rt.associations, AssociationPushes(d, rt.id), refs, d);
    }
    EndsInMap(d.routeTables, RoutePushes(d), refs, d);
  }

  lemma AttachEnds(account: string, d: Data, refs: set<NodeRef>)
    requires Covers(account, d, refs)
    ensures EndsIn(FlatMap(d.loadBalancers, LbSubnetPushes(d)), refs, d)
  {
    hide FlatMap, Placements;
    forall lb | lb in d.loadBalancers ensures EndsIn(LbSubnetPushes(d)(lb), refs, d) {
      assert lb.id in Ids(account, d, LbP);
      forall a | a in lb.subnetIds ensures EndsIn(AttachPushes(d, lb.id)(a), refs, d) {
        var s := SubnetById(d, a);
        if s.Some? { assert s.value.id in Ids(account, d, SubnetP); }
      }
      EndsInMap(lb.subnetIds, AttachPushes(d, lb.id), refs, d);
    }
    EndsInMap(d.loadBalancers, LbSubnetPushes(d), refs, d);
  }

  lemma RunsInEnds(account: string, d: Data, s: Service, refs: set<NodeRef>)
    requires Covers(account, d, refs) && s in d.services
    ensures EndsIn(FlatMap(s.subnets, RunsInPushes(d, s.id)), refs, d)
  {
    hide FlatMap, Placements;
    assert s.id in Ids(account, d, ServiceP);
    forall a | a in s.subnets ensures EndsIn(RunsInPushes(d, s.id)(a), refs, d) {
      var subnet := SubnetByAwsId(d, a);
      if subnet.Some? { assert subnet.value.id in Ids(account, d, SubnetP); }
    }
    EndsInMap(s.subnets, RunsInPushes(d, s.id), refs, d);
  }

  lemma TrafficEnds(account: string, d: Data, s: Service, refs: set<NodeRef>)
    requires Covers(account, d, refs) && s in d.services
    ensures EndsIn(FlatMap(s.loadBalancers, TrafficPushes(d, s.id)), refs, d)
  {
    hide FlatMap, Placements;
    assert s.id in Ids(account, d, ServiceP);
    forall r | r in s.loadBalancers ensures EndsIn(TrafficPushes(d, s.id)(r), refs, d) {
      var lb := ResolveLb(d, r);
      if lb.Some? { assert lb.value.id in Ids(account, d, LbP); }
    }
    EndsInMap(s.loadBalancers, TrafficPushes(d, s.id), refs, d);
  }

  lemma RoleEnds(account: string, d: Data, source: NodeRef, roleId: Option<string>, relationship: string,
                 refs: set<NodeRef>)
    requires Covers(account, d, refs) && source in refs && ':' !in relationship
    ensures EndsIn(RolePushes(d, source, roleId, relationship), refs, d)
  {
    hide Placements;
    if roleId.Some? && roleId.value != "" {
      var role := FindLast(d.globals(IamRoles), (g: Global) => g.id == roleId.value);
      if role.Some? { assert role.value.id in Ids(account, d, GlobalP(IamRoles)); }
    }
  }

  lemma TaskDefEnds(account: string, d: Data, s: Service, refs: set<NodeRef>)
    requires Covers(account, d, refs) && s in d.services
    ensures EndsIn(TaskDefPushes(d, s), refs, d)
  {
    hide Placements, RolePushes;
    assert s.id in Ids(account, d, ServiceP);
    var t := FindLast(d.taskDefs, (t: TaskDef) => t.id == s.taskDefinitionId);
    if t.Some? && InUse(d, t.value.id) {
      assert t.value.id in Ids(account, d, TaskDefP);
      RoleEnds(account, d, TaskDefRef(t.value.id), t.value.executionRoleId, "execution-role", refs);
      RoleEnds(account, d, TaskDefRef(t.value.id), t.value.taskRoleId, "task-role", refs);
    }
  }

  lemma ServiceEnds(account: string, d: Data, s: Service, refs: set<NodeRef>)
    requires Covers(account, d, refs) && s in d.services
    ensures EndsIn(ServicePushes(d)(s), refs, d)
  {
    hide FlatMap, Placements, ClusterServicePushes;
    var c := FindLast(d.clusters, (c: Cluster) => c.id == s.clusterId);
    if c.Some? { ClusterServiceEnds(account, d, c.value, s, refs); }
  }

  lemma ClusterServiceEnds(account: string, d: Data, c: Cluster, s: Service, refs: set<NodeRef>)
    requires Covers(account, d, refs) && s in d.services && c in d.clusters
    ensures EndsIn(ClusterServicePushes(d, c, s), refs, d)
  {
    hide FlatMap, Placements, RolePushes, TaskDefPushes;
    assert s.id in Ids(account, d, ServiceP) && c.id in Ids(account, d, ClusterP);
    RunsInEnds(account, d, s, refs);
    TrafficEnds(account, d, s, refs);
    TaskDefEnds(account, d, s, refs);
    RoleEnds(account, d, ServiceRef(s.id), s.serviceRoleId, "service-role", refs);
  }

  lemma LinkEnds(sources: seq<Resource>, targets: seq<Resource>, relationship: string, refs: set<NodeRef>, d: Data)
    requires RefsOf(sources) <= refs && RefsOf(targets) <= refs && ':' !in relationship
    ensures EndsIn(FlatMap(sources, LinkAll(targets, relationship)), refs, d)
  {
    hide FlatMap;
    forall x | x in sources ensures EndsIn(LinkAll(targets, relationship)(x), refs, d) {
      assert ResourceRef(x) in RefsOf(sources);
      forall y | y in targets ensures EndsIn(LinkTo(ResourceRef(x), relationship)(y), refs, d) {
        assert ResourceRef(y) in RefsOf(targets);
      }
      EndsInMap(targets, LinkTo(ResourceRef(x), relationship), refs, d);
    }
    EndsInMap(sources, LinkAll(targets, relationship), refs, d);
  }

  lemma CollectionEnds(m: Model, k: Inventory.GlobalKind, refs: set<NodeRef>, d: Data)
    requires RootRef(m.cloudAccountId) in refs && RefsOf(m.globals(k)) <= refs
    ensures EndsIn(CollectionPushes(m)(k), refs, d)
  {
    hide FlatMap;
    var f := GlobalPushes(m.cloudAccountId, Containment(k));
    forall x | x in m.globals(k) ensures EndsIn(f(x), refs, d) {
      assert ResourceRef(x) in RefsOf(m.globals(k));
    }
    EndsInMap(m.globals(k), f, refs, d);
  }

  lemma PickedRefs(bs: seq<Bucket>, d: Data, pick: Bucket -> seq<Resource>, refs: set<NodeRef>)
    requires forall b :: b in bs ==> NodeRefs(BucketPushes(d)(b)) <= refs
    requires forall b, x :: b in bs && x in pick(b) ==> x in b.loadBalancers || x in b.serverless
    ensures RefsOf(FlatMap(bs, pick)) <= refs
  {
    hide FlatMap, NodeRefs, BucketPushes;
    forall r | r in RefsOf(FlatMap(bs, pick)) ensures r in refs {
      var x :| x in FlatMap(bs, pick) && r == ResourceRef(x);
      FlatMapMember(bs, pick, x);
      var b :| b in bs && x in pick(b);
      BucketNodeSets(d, b);
      assert r in RefsOf(b.loadBalancers) || r in RefsOf(b.serverless);
    }
  }

  lemma PicksInside(b: Bucket, x: Resource)
    ensures x in LbsOf(b) <==> x in b.loadBalancers && x.rtype.LoadBalancerOf?
    ensures x in LambdasOf(b) <==> x in b.serverless && x.rtype.LambdaFunction?
  {
    FlatMapMember(b.loadBalancers, IsLoadBalancer, x);
    FlatMapMember(b.serverless, IsLambda, x);
  }

  lemma CrossEnds(account: string, d: Data, m: Model, refs: set<NodeRef>)
    requires forall b :: b in m.vpcs ==> NodeRefs(BucketPushes(d)(b)) <= refs
    requires forall k :: RefsOf(m.globals(k)) <= refs
    ensures EndsIn(FlatMap(m.globals(Route53), LinkAll(m.globals(CloudFront), "dns")), refs, d)
    ensures EndsIn(FlatMap(m.globals(CloudFront), LinkAll(FlatMap(m.vpcs, LbsOf), "http-s")), refs, d)
    ensures EndsIn(FlatMap(m.globals(ApiGateways), LinkAll(FlatMap(m.vpcs, LambdasOf), "invoke")), refs, d)
  {
    forall b, x ensures x in LbsOf(b) || x in LambdasOf(b) ==> x in b.loadBalancers || x in b.serverless {
      PicksInside(b, x);
    }
    hide FlatMap, NodeRefs, BucketPushes, EndsIn, RefsOf, LbsOf, LambdasOf;
    PickedRefs(m.vpcs, d, LbsOf, refs);
    PickedRefs(m.vpcs, d, LambdasOf, refs);
    LinkEnds(m.globals(Route53), m.globals(CloudFront), "dns", refs, d);
    LinkEnds(m.globals(CloudFront), FlatMap(m.vpcs, LbsOf), "http-s", refs, d);
    LinkEnds(m.globals(ApiGateways), FlatMap(m.vpcs, LambdasOf), "invoke", refs, d);
  }

  lemma BucketsInScript(account: string, d: Data, b: Bucket)
    requires b in BuildModel(account, d).vpcs
    ensures NodeRefs(BucketPushes(d)(b)) <= NodeRefs(ScriptOf(account, d))
  {
    hide FlatMap, NodeRefs, BucketPushes, BuildModel, Script;
    var m := BuildModel(account, d);
    ScriptNodes(m, d);
    forall r | r in NodeRefs(BucketPushes(d)(b)) ensures r in NodeRefs(FlatMap(m.vpcs, BucketPushes(d))) {
      NodeRefsMap(m.vpcs, BucketPushes(d), r);
    }
  }

  lemma GlobalsInScript(account: string, d: Data, k: Inventory.GlobalKind)
    ensures RefsOf(BuildModel(account, d).globals(k)) <= NodeRefs(ScriptOf(account, d))
  {
    hide FlatMap, NodeRefs, RefsOf, Ids, BuildModel, Script, CollectionPushes;
    var m := BuildModel(account, d);
    CollectionNodes(m, k);
    forall r | r in RefsOf(m.globals(k)) ensures r in NodeRefs(ScriptOf(account, d)) {
      GlobalNodes(account, d, k, r);
      RefsExact(account, d, r);
    }
  }

  /** Every edge pushed ends in pushed nodes, except that a listener's load balancer may be missing. */
  lemma ScriptEnds(account: string, d: Data)
    ensures EndsIn(ScriptOf(account, d), NodeRefs(ScriptOf(account, d)), d)
  {
    hide FlatMap, NodeRefs, BucketPushes, Ids, RefsOf, BuildModel, CollectionPushes, EndsIn;
    var m := BuildModel(account, d);
    var refs := NodeRefs(ScriptOf(account, d));
    forall p, id | id in Ids(account, d, p) ensures NodeRef(p, id) in refs { RefsExact(account, d, NodeRef(p, id)); }
    RootIds(account, d);
    assert RootRef(account) in refs;
    forall b | b in m.vpcs ensures NodeRefs(BucketPushes(d)(b)) <= refs && EndsIn(BucketPushes(d)(b), refs, d) {
      BucketsInScript(account, d, b);
      BucketEnds(d, b, refs);
    }
    forall k ensures RefsOf(m.globals(k)) <= refs && EndsIn(CollectionPushes(m)(k), refs, d) {
      GlobalsInScript(account, d, k);
      CollectionEnds(m, k, refs, d);
    }
    EndsInMap(m.vpcs, BucketPushes(d), refs, d);
    RouteEnds(account, d, refs);
    AttachEnds(account, d, refs);
    forall s | s in d.services ensures EndsIn(ServicePushes(d)(s), refs, d) { ServiceEnds(account, d, s, refs); }
    EndsInMap(d.services, ServicePushes(d), refs, d);
    EndsInMap(GLOBAL_ORDER, CollectionPushes(m), refs, d);
    CrossEnds(account, d, m, refs);
    SegmentsEnd(m, d, refs);
  }

  lemma SegmentsEnd(m: Model, d: Data, refs: set<NodeRef>)
    requires EndsIn(FlatMap(m.vpcs, BucketPushes(d)), refs, d)
             && EndsIn(FlatMap(d.routeTables, RoutePushes(d)), refs, d)
    requires EndsIn(FlatMap(d.loadBalancers, LbSubnetPushes(d)), refs, d)
             && EndsIn(FlatMap(d.services, ServicePushes(d)), refs, d)
    requires EndsIn(FlatMap(GLOBAL_ORDER, CollectionPushes(m)), refs, d)
    requires EndsIn(FlatMap(m.globals(Route53), LinkAll(m.globals(CloudFront), "dns")), refs, d)
    requires EndsIn(FlatMap(m.globals(CloudFront), LinkAll(FlatMap(m.vpcs, LbsOf), "http-s")), refs, d)
    requires EndsIn(FlatMap(m.globals(ApiGateways), LinkAll(FlatMap(m.vpcs, LambdasOf), "invoke")), refs, d)
    ensures EndsIn(Script(m, d), refs, d)
  {
    hide FlatMap;
  }

  // ----- closure -----

  ghost predicate NoDanglingEdge(g: Graph)
  {
    forall e :: e in g.edges ==> e.source in NodeIds(g) && e.target in NodeIds(g)
  }

  /** Ids as the tables hold them (UUIDs): no arrow in the id of anything an edge can start from. */
  ghost predicate PlainIds(account: string, d: Data)
  {
    && (forall p, id :: id in Ids(account, d, p) ==> NoArrow(id))
    && (forall l :: l in d.listeners ==> NoArrow(l.loadBalancerId))
  }

  /** With every listener on a listed load balancer, both ends of every edge are nodes. */
  lemma ClosedGraph(account: string, d: Data)
    requires ListenersListed(d)
    ensures NoDanglingEdge(GraphOf(account, d))
  {
    hide FlatMap, Exec, Script, NodeRefs, Ids;
    var log := ScriptOf(account, d);
    var refs := NodeRefs(log);
    EdgesPushed(log);
    NodesExact(log);
    ScriptEnds(account, d);
    forall e | e in Exec(log).edges ensures e.source in NodeIds(Exec(log)) && e.target in NodeIds(Exec(log)) {
      var p :| p in log && IsPushOf(p, e.source, e.target, e.relationship);
      if p.source !in refs {
        var l :| l in d.listeners && p.source == LbNode(l.loadBalancerId);
        var lb :| lb in d.loadBalancers && lb.id == l.loadBalancerId;
        LbIds(account, d, lb);
        RefsExact(account, d, p.source);
      }
    }
  }

  lemma LbIds(account: string, d: Data, lb: LoadBalancer)
    requires lb in d.loadBalancers
    ensures lb.id in Ids(account, d, LbP)
  {
    hide Placements;
  }

  // ----- where a placed item shows up among the pushes -----

  lemma PushedInBucket(account: string, d: Data, p: Placement) returns (b: Bucket)
    requires p in Placements(account, d)
    ensures b in BuildModel(account, d).vpcs && b.id == p.home && HasItem(b, p.item)
  {
    hide Placements, FlatMap, HasItem, Order, Fill, Base, BuildModel, VpcIds, HasUnassigned;
    var log := Placements(account, d);
    PlacementsHomed(account, d);
    OrderMember(account, d, log, p.home);
    b := Fill(Base(account, d, p.home), log);
    BucketsInOrder(account, d, b);
    FillExact(Base(account, d, p.home), log, p.item);
    BaseId(account, d, p.home);
    assert HasUnassigned(account, log) || p.home in VpcIds(d) by { UnassignedWitness(account, log, p); }
    assert Placement(b.id, p.item) == p;
  }

  lemma UnassignedWitness(account: string, log: seq<Placement>, p: Placement)
    requires p in log
    ensures p.home == UnassignedId(account) ==> HasUnassigned(account, log)
  {
  }

  lemma InScript(account: string, d: Data, b: Bucket, p: Push)
    requires b in BuildModel(account, d).vpcs && p in BucketPushes(d)(b)
    ensures p in ScriptOf(account, d)
  {
    hide FlatMap, BucketPushes, BuildModel;
    FlatMapMember(BuildModel(account, d).vpcs, BucketPushes(d), p);
  }

  function SlotPushes(d: Data, b: Bucket, slot: Slot): seq<Push>
  {
    match slot
    case RouteTables => FlatMap(b.routeTables, ContainedPushes(b.id, "has-route-table"))
    case SecurityGroups => FlatMap(b.securityGroups, ContainedPushes(b.id, "has-security-group"))
    case LoadBalancers => FlatMap(b.loadBalancers, LbPushes(d, b.id))
    case Databases => FlatMap(b.databases, ContainedPushes(b.id, "contains-database"))
    case Caches => FlatMap(b.caches, ContainedPushes(b.id, "contains-cache"))
    case Containers => FlatMap(b.containers, ContainedPushes(b.id, "contains-workload"))
    case Serverless => FlatMap(b.serverless, ContainedPushes(b.id, "contains-serverless"))
  }

  lemma SlotInBucket(d: Data, b: Bucket, slot: Slot, p: Push)
    requires p in SlotPushes(d, b, slot)
    ensures p in BucketPushes(d)(b)
  {
    hide FlatMap;
  }

  /** A resource hangs off the bucket it is placed in, a listener off its load balancer. */
  lemma SlotEdge(d: Data, b: Bucket, slot: Slot, x: Resource) returns (p: Push)
    requires x in b.Get(slot)
    requires x.rtype.LoadBalancerListener? && slot == LoadBalancers ==> exists l :: l in d.listeners && l.id == x.id
    ensures p in BucketPushes(d)(b) && p.PushEdge? && p.target == ResourceRef(x)
    ensures if x.rtype.LoadBalancerListener? && slot == LoadBalancers
            then FindFirst(d.listeners, (l: Listener) => l.id == x.id).Some? &&
                 p.source == LbNode(FindFirst(d.listeners, (l: Listener) => l.id == x.id).value.loadBalancerId)
            else p.source == VpcRef(b.id)
  {
    hide BucketPushes, FlatMap;
    if slot == LoadBalancers {
      var edge := LbEdge(d, b.id, x);
      p := edge[0];
      assert LbPushes(d, b.id)(x)[1] == p;
      FlatMapMember(b.loadBalancers, LbPushes(d, b.id), p);
    } else {
      p := SlotContained(d, b, slot, x);
    }
    SlotInBucket(d, b, slot, p);
  }

  lemma SlotContained(d: Data, b: Bucket, slot: Slot, x: Resource) returns (p: Push)
    requires x in b.Get(slot) && slot != LoadBalancers
    ensures p in SlotPushes(d, b, slot) && p.PushEdge? && p.target == ResourceRef(x) && p.source == VpcRef(b.id)
  {
    hide FlatMap;
    var rel := match slot
      case RouteTables => "has-route-table"
      case SecurityGroups => "has-security-group"
      case LoadBalancers => ""
      case Databases => "contains-database"
      case Caches => "contains-cache"
      case Containers => "contains-workload"
      case Serverless => "contains-serverless";
    p := PushEdge(VpcRef(b.id), ResourceRef(x), rel, false);
    assert ContainedPushes(b.id, rel)(x)[1] == p;
    FlatMapMember(b.Get(slot), ContainedPushes(b.id, rel), p);
  }

  /** The listener push of a listed row, with ids unique among listeners. */
  lemma ListenerEdge(account: string, d: Data, l: Listener) returns (p: Push)
    requires l in d.listeners && UniqueBy(d.listeners, IdOfListener)
    ensures p in ScriptOf(account, d) && p.PushEdge? && p.source == LbNode(l.loadBalancerId)
            && p.target == NodeRef(ListenerP, l.id)
  {
    hide BuildModel, BucketPushes, Script, Placements;
    var x := Resource(l.id, LoadBalancerListener, l.name);
    var q := ListenerPlaced(account, d, l);
    var b := PushedInBucket(account, d, q);
    assert x in b.Get(LoadBalancers);
    p := SlotEdge(d, b, LoadBalancers, x);
    var found := FindFirst(d.listeners, (y: Listener) => y.id == x.id);
    UniqueRow(d.listeners, IdOfListener, l, found.value);
    InScript(account, d, b, p);
  }

  lemma ListenerPlaced(account: string, d: Data, l: Listener) returns (p: Placement)
    requires l in d.listeners
    ensures p in Placements(account, d) && p.item == InSlot(LoadBalancers, Resource(l.id, LoadBalancerListener, l.name))
  {
    p := PlaceListener(account, d)(l)[0];
    assert p in PlaceListener(account, d)(l);
    FlatMapMember(d.listeners, PlaceListener(account, d), p);
    hide FlatMap;
  }

  lemma ScriptPlain(account: string, d: Data)
    requires PlainIds(account, d)
    ensures PlainEdges(ScriptOf(account, d))
  {
    hide Script, NodeRefs, Ids;
    var log := ScriptOf(account, d);
    ScriptEnds(account, d);
    forall p | p in log && p.PushEdge? ensures NoArrow(p.source.id) && ':' !in p.relationship {
      assert PushEndsIn(p, NodeRefs(log), d);
      RefsExact(account, d, p.source);
    }
  }

  /** The graph has no dangling edge exactly when every listener's load balancer is listed. */
  lemma ClosedIffListed(account: string, d: Data)
    requires UniqueBy(d.listeners, IdOfListener) && PlainIds(account, d)
    ensures NoDanglingEdge(GraphOf(account, d)) <==> ListenersListed(d)
  {
    hide GraphOf, NoDanglingEdge, PlainIds;
    if ListenersListed(d) {
      ClosedGraph(account, d);
    }
    if NoDanglingEdge(GraphOf(account, d)) {
      forall l | l in d.listeners ensures exists lb :: lb in d.loadBalancers && lb.id == l.loadBalancerId {
        DanglingListener(account, d, l);
      }
    }
  }

  lemma DanglingListener(account: string, d: Data, l: Listener)
    requires UniqueBy(d.listeners, IdOfListener) && PlainIds(account, d)
    requires NoDanglingEdge(GraphOf(account, d)) && l in d.listeners
    ensures exists lb :: lb in d.loadBalancers && lb.id == l.loadBalancerId
  {
    hide Script, Exec, NodeRefs, Placements;
    var log := ScriptOf(account, d);
    var p := ListenerEdge(account, d, l);
    ScriptPlain(account, d);
    PushKept(log, p);
    var e :| && e in Exec(log).edges && e.source == Print(p.source) && e.target == Print(p.target)
             && e.relationship == p.relationship;
    NodesExact(log);
    RefsExact(account, d, p.source);
    assert l.loadBalancerId in Ids(account, d, LbP);
  }

  // ----- reachability -----

  predicate IsAnchor(r: NodeRef) { r.prefix.Root? || r.prefix.VpcP? }

  ghost predicate Pushed(log: seq<Push>, source: NodeRef, target: NodeRef)
  {
    exists p :: p in log && p.PushEdge? && p.source == source && p.target == target
  }

  ghost predicate InOneStep(log: seq<Push>, r: NodeRef)
  {
    exists a :: IsAnchor(a) && Pushed(log, a, r)
  }

  ghost predicate InTwoSteps(log: seq<Push>, r: NodeRef)
  {
    exists m :: InOneStep(log, m) && Pushed(log, m, r)
  }

  lemma SubnetEdges(d: Data, b: Bucket, s: SubnetSummary)
    requires s in b.subnets
    ensures Pushed(BucketPushes(d)(b), VpcRef(b.id), SubnetRef(s.id))
    ensures forall x :: x in s.resources ==> Pushed(BucketPushes(d)(b), SubnetRef(s.id), ResourceRef(x))
  {
    hide FlatMap, SubnetOwner;
    var ps := SubnetPushes(d, b.id)(s);
    forall p | p in ps ensures p in BucketPushes(d)(b) {
      FlatMapMember(b.subnets, SubnetPushes(d, b.id), p);
    }
    assert ps[1].PushEdge? && ps[1] in ps;
    forall x | x in s.resources ensures Pushed(BucketPushes(d)(b), SubnetRef(s.id), ResourceRef(x)) {
      var p := HostPushes(s.id)(x)[1];
      assert p in HostPushes(s.id)(x);
      FlatMapMember(s.resources, HostPushes(s.id), p);
      assert p in ps;
    }
  }

  lemma PushedInScript(account: string, d: Data, b: Bucket, source: NodeRef, target: NodeRef)
    requires b in BuildModel(account, d).vpcs && Pushed(BucketPushes(d)(b), source, target)
    ensures Pushed(ScriptOf(account, d), source, target)
  {
    hide BuildModel, BucketPushes, Script;
    var p :| p in BucketPushes(d)(b) && p.PushEdge? && p.source == source && p.target == target;
    InScript(account, d, b, p);
  }

  lemma HostedReached(account: string, d: Data, b: Bucket, s: SubnetSummary, r: NodeRef)
    requires b in BuildModel(account, d).vpcs && s in b.subnets && r in ItemRefs(InSubnets(s))
    ensures InOneStep(ScriptOf(account, d), r) || InTwoSteps(ScriptOf(account, d), r)
  {
    hide BuildModel, BucketPushes, Script;
    var log := ScriptOf(account, d);
    SubnetEdges(d, b, s);
    PushedInScript(account, d, b, VpcRef(b.id), SubnetRef(s.id));
    assert InOneStep(log, SubnetRef(s.id));
    if r != SubnetRef(s.id) {
      PushedInScript(account, d, b, SubnetRef(s.id), r);
    }
  }

  lemma LbReached(account: string, d: Data, lb: LoadBalancer)
    requires lb in d.loadBalancers
    ensures InOneStep(ScriptOf(account, d), LbNode(lb.id))
  {
    hide BuildModel, BucketPushes, Script, Placements, FlatMap;
    var q := PlaceLb(account, d)(lb)[0];
    assert q in PlaceLb(account, d)(lb);
    FlatMapMember(d.loadBalancers, PlaceLb(account, d), q);
    LbPlaced(account, d, q);
    var b := PushedInBucket(account, d, q);
    var p := SlotEdge(d, b, LoadBalancers, q.item.resource);
    InScript(account, d, b, p);
    assert Pushed(ScriptOf(account, d), VpcRef(b.id), LbNode(lb.id));
  }

  lemma LbPlaced(account: string, d: Data, q: Placement)
    requires q in FlatMap(d.loadBalancers, PlaceLb(account, d))
    ensures q in Placements(account, d)
  {
    hide FlatMap;
  }

  lemma SlotReached(account: string, d: Data, b: Bucket, slot: Slot, x: Resource)
    requires b in BuildModel(account, d).vpcs && x in b.Get(slot) && ListenersListed(d)
    requires x.rtype.LoadBalancerListener? ==> exists l :: l in d.listeners && l.id == x.id
    ensures InOneStep(ScriptOf(account, d), ResourceRef(x)) || InTwoSteps(ScriptOf(account, d), ResourceRef(x))
  {
    hide BuildModel, BucketPushes, Script;
    var log := ScriptOf(account, d);
    var p := SlotEdge(d, b, slot, x);
    InScript(account, d, b, p);
    assert Pushed(log, p.source, ResourceRef(x));
    if x.rtype.LoadBalancerListener? && slot == LoadBalancers {
      var l := FindFirst(d.listeners, (l: Listener) => l.id == x.id).value;
      var lb :| lb in d.loadBalancers && lb.id == l.loadBalancerId;
      LbReached(account, d, lb);
    }
  }

  lemma GlobalListed(account: string, d: Data, k: Inventory.GlobalKind, id: string) returns (x: Resource)
    requires id in Ids(account, d, GlobalP(k))
    ensures x in BuildModel(account, d).globals(k) && ResourceRef(x) == NodeRef(GlobalP(k), id)
  {
    hide FlatMap, Placements, Fill, Base, Order;
    var g :| g in d.globals(k) && g.id == id;
    x := Resource(g.id, GlobalType(k), g.name);
    assert x in AsGlobal(k)(g);
    FlatMapMember(d.globals(k), AsGlobal(k), x);
  }

  lemma GlobalReached(account: string, d: Data, k: Inventory.GlobalKind, id: string)
    requires id in Ids(account, d, GlobalP(k))
    ensures InOneStep(ScriptOf(account, d), NodeRef(GlobalP(k), id))
  {
    hide FlatMap, Placements, BucketPushes, BuildModel, Ids, Script;
    var m := BuildModel(account, d);
    var x := GlobalListed(account, d, k, id);
    var f := GlobalPushes(m.cloudAccountId, Containment(k));
    var p := f(x)[1];
    assert p in f(x);
    FlatMapMember(m.globals(k), f, p);
    AllKindsListed(k);
    FlatMapMember(GLOBAL_ORDER, CollectionPushes(m), p);
    CollectionInScript(m, d, p);
    assert Pushed(ScriptOf(account, d), RootRef(m.cloudAccountId), NodeRef(GlobalP(k), id));
  }

  lemma CollectionInScript(m: Model, d: Data, p: Push)
    requires p in FlatMap(GLOBAL_ORDER, CollectionPushes(m))
    ensures p in Script(m, d)
  {
    hide FlatMap;
  }

  lemma PlacedReached(account: string, d: Data, r: NodeRef)
    requires ListenersListed(d) && r in PlacedRefs(Placements(account, d))
    requires r.prefix == ListenerP ==> exists l :: l in d.listeners && l.id == r.id
    ensures InOneStep(ScriptOf(account, d), r) || InTwoSteps(ScriptOf(account, d), r)
  {
    hide Placements, BuildModel, Script;
    var q :| q in Placements(account, d) && r in ItemRefs(q.item);
    var b := PushedInBucket(account, d, q);
    match q.item
    case InSlot(slot, x) => SlotReached(account, d, b, slot, x);
    case InSubnets(s) => HostedReached(account, d, b, s, r);
  }

  /** Every node but the root and the VPCs is at most two edges away from one of those. */
  lemma Reachable(account: string, d: Data, r: NodeRef)
    requires ListenersListed(d) && !IsAnchor(r) && r in NodeRefs(ScriptOf(account, d))
    ensures InOneStep(ScriptOf(account, d), r) || InTwoSteps(ScriptOf(account, d), r)
  {
    hide Placements, Script, NodeRefs, Ids, PlacedRefs, InOneStep, InTwoSteps, ListenersListed;
    RefsExact(account, d, r);
    if r.prefix.GlobalP? {
      GlobalReached(account, d, r.prefix.kind, r.id);
    } else {
      ListenerRow(account, d, r);
      PlacedExact(account, d, r);
      PlacedReached(account, d, r);
    }
  }

  lemma ListenerRow(account: string, d: Data, r: NodeRef)
    requires r.id in Ids(account, d, r.prefix)
    ensures r.prefix == ListenerP ==> exists l :: l in d.listeners && l.id == r.id
  {
    hide Placements;
  }

  /** The same in the compiled graph, whose edges are the pushed ones. */
  ghost predicate EdgeBetween(g: Graph, source: NodeRef, target: NodeRef)
  {
    exists e :: e in g.edges && e.source == Print(source) && e.target == Print(target)
  }

  lemma PushedKept(account: string, d: Data, source: NodeRef, target: NodeRef)
    requires PlainIds(account, d) && Pushed(ScriptOf(account, d), source, target)
    ensures EdgeBetween(GraphOf(account, d), source, target)
  {
    hide Script, Exec;
    var log := ScriptOf(account, d);
    ScriptPlain(account, d);
    var p :| p in log && p.PushEdge? && p.source == source && p.target == target;
    PushKept(log, p);
  }

  /** One or two edges lead to r from the root or a VPC. */
  ghost predicate NearAnchor(g: Graph, r: NodeRef)
  {
    exists a :: IsAnchor(a) && (EdgeBetween(g, a, r) || exists m :: EdgeBetween(g, a, m) && EdgeBetween(g, m, r))
  }

  lemma GraphReachable(account: string, d: Data, r: NodeRef)
    requires ListenersListed(d) && PlainIds(account, d)
    requires Print(r) in NodeIds(GraphOf(account, d)) && !IsAnchor(r)
    ensures NearAnchor(GraphOf(account, d), r)
  {
    hide Script, Exec, NodeRefs, EdgeBetween, Pushed, PlainIds, ListenersListed;
    var log := ScriptOf(account, d);
    NodesExact(log);
    Reachable(account, d, r);
    if InOneStep(log, r) {
      var a :| IsAnchor(a) && Pushed(log, a, r);
      PushedKept(account, d, a, r);
    } else {
      var m :| InOneStep(log, m) && Pushed(log, m, r);
      var a :| IsAnchor(a) && Pushed(log, a, m);
      PushedKept(account, d, a, m);
      PushedKept(account, d, m, r);
    }
  }

  // ----- conservation -----

  const FIXED_PREFIXES: seq<Prefix> :=
    [Root, VpcP, SubnetP, Ec2P, ListenerP, LbP, RouteTableP, SecurityGroupP, RdsP, CacheP, LambdaP, EksP, ClusterP,
     ServiceP, TaskDefP]

  function RefsUnderAll(account: string, d: Data, ps: seq<Prefix>): set<NodeRef>
  {
    if ps == [] then {} else RefsUnder(account, d, ps[0]) + RefsUnderAll(account, d, ps[1..])
  }

  function SumIds(account: string, d: Data, ps: seq<Prefix>): nat
  {
    if ps == [] then 0 else |Ids(account, d, ps[0])| + SumIds(account, d, ps[1..])
  }

  lemma SumCons(account: string, d: Data, p: Prefix, ps: seq<Prefix>)
    ensures SumIds(account, d, [p] + ps) == |Ids(account, d, p)| + SumIds(account, d, ps)
  {
    assert ([p] + ps)[1..] == ps;
  }

  lemma {:induction false} SumAppend(account: string, d: Data, ps: seq<Prefix>, qs: seq<Prefix>)
    ensures SumIds(account, d, ps + qs) == SumIds(account, d, ps) + SumIds(account, d, qs)
  {
    if ps == [] {
      assert ps + qs == qs;
    } else {
      SumAppend(account, d, ps[1..], qs);
      assert ps + qs == [ps[0]] + (ps[1..] + qs);
      SumCons(account, d, ps[0], ps[1..] + qs);
    }
  }

  function GlobalPrefixes(ks: seq<Inventory.GlobalKind>): seq<Prefix>
  {
    if ks == [] then [] else [GlobalP(ks[0])] + GlobalPrefixes(ks[1..])
  }

  lemma {:induction false} TagSize(prefix: Prefix, ids: set<string>)
    ensures |set id | id in ids :: NodeRef(prefix, id)| == |ids|
  {
    if ids != {} {
      var id :| id in ids;
      TagSize(prefix, ids - {id});
      var rest := set x | x in ids - {id} :: NodeRef(prefix, x);
      assert (set x | x in ids :: NodeRef(prefix, x)) == rest + {NodeRef(prefix, id)};
    }
  }

  lemma {:induction false} RefsUnderAllMember(account: string, d: Data, ps: seq<Prefix>, r: NodeRef)
    ensures r in RefsUnderAll(account, d, ps) <==> r.prefix in ps && r.id in Ids(account, d, r.prefix)
  {
    hide Ids;
    if ps != [] {
      RefsUnderAllMember(account, d, ps[1..], r);
      assert r in RefsUnder(account, d, ps[0]) <==> r.prefix == ps[0] && r.id in Ids(account, d, ps[0]);
    }
  }

  lemma {:induction false} RefsUnderAllSize(account: string, d: Data, ps: seq<Prefix>)
    requires forall i, j :: 0 <= i < j < |ps| ==> ps[i] != ps[j]
    ensures |RefsUnderAll(account, d, ps)| == SumIds(account, d, ps)
  {
    hide Ids;
    if ps != [] {
      RefsUnderAllSize(account, d, ps[1..]);
      TagSize(ps[0], Ids(account, d, ps[0]));
      forall r ensures !(r in RefsUnder(account, d, ps[0]) && r in RefsUnderAll(account, d, ps[1..])) {
        RefsUnderAllMember(account, d, ps[1..], r);
      }
      assert RefsUnder(account, d, ps[0]) !! RefsUnderAll(account, d, ps[1..]);
    }
  }

  lemma SumFixed(account: string, d: Data)
    ensures SumIds(account, d, FIXED_PREFIXES) ==
            |Ids(account, d, Root)| + |Ids(account, d, VpcP)| + |Ids(account, d, SubnetP)| + |Ids(account, d, Ec2P)|
            + |Ids(account, d, ListenerP)| + |Ids(account, d, LbP)| + |Ids(account, d, RouteTableP)|
            + |Ids(account, d, SecurityGroupP)| + |Ids(account, d, RdsP)| + |Ids(account, d, CacheP)|
            + |Ids(account, d, LambdaP)| + |Ids(account, d, EksP)| + |Ids(account, d, ClusterP)|
            + |Ids(account, d, ServiceP)| + |Ids(account, d, TaskDefP)|
  {
    hide Ids;
    var a, b, c := [Root, VpcP, SubnetP], [Ec2P, ListenerP, LbP], [RouteTableP, SecurityGroupP, RdsP];
    var e, f := [CacheP, LambdaP, EksP], [ClusterP, ServiceP, TaskDefP];
    Sum3(account, d, Root, VpcP, SubnetP);
    Sum3(account, d, Ec2P, ListenerP, LbP);
    Sum3(account, d, RouteTableP, SecurityGroupP, RdsP);
    Sum3(account, d, CacheP, LambdaP, EksP);
    Sum3(account, d, ClusterP, ServiceP, TaskDefP);
    SumAppend(account, d, e, f);
    SumAppend(account, d, c, e + f);
    SumAppend(account, d, b, c + (e + f));
    SumAppend(account, d, a, b + (c + (e + f)));
    assert FIXED_PREFIXES == a + (b + (c + (e + f)));
  }

  lemma Sum3(account: string, d: Data, p: Prefix, q: Prefix, r: Prefix)
    ensures SumIds(account, d, [p, q, r]) == |Ids(account, d, p)| + |Ids(account, d, q)| + |Ids(account, d, r)|
  {
    hide Ids;
    SumCons(account, d, r, []);
    SumCons(account, d, q, [r]);
    SumCons(account, d, p, [q, r]);
    assert [r] + [] == [r] && [q] + [r] == [q, r] && [p] + [q, r] == [p, q, r];
  }

  lemma {:induction false} SumGlobalIds(account: string, d: Data, ks: seq<Inventory.GlobalKind>)
    requires UniqueIds(d)
    ensures SumIds(account, d, GlobalPrefixes(ks)) == SumGlobals(d, ks)
  {
    hide Placements;
    if ks != [] {
      var k := ks[0];
      SumGlobalIds(account, d, ks[1..]);
      SumCons(account, d, GlobalP(k), GlobalPrefixes(ks[1..]));
      KeySetSize(d.globals(k), IdOfGlobal);
      assert Ids(account, d, GlobalP(k)) == KeySet(d.globals(k), IdOfGlobal);
    }
  }

  // ----- rows that get no node -----

  function KeepIf<R>(keep: R -> bool): R -> seq<R> { (r: R) => if keep(r) then [r] else [] }
  function DropIf<R>(keep: R -> bool): R -> seq<R> { (r: R) => if keep(r) then [] else [r] }

  lemma {:induction false} KeepOrDrop<R>(rows: seq<R>, keep: R -> bool)
    ensures |FlatMap(rows, KeepIf(keep))| + |FlatMap(rows, DropIf(keep))| == |rows|
  {
    if rows != [] {
      KeepOrDrop(rows[..|rows| - 1], keep);
    }
  }

  function UsedTaskDef(d: Data): TaskDef -> bool { (t: TaskDef) => InUse(d, t.id) }
  function HostedEc2(d: Data): Ec2 -> bool { (e: Ec2) => Hosted(d, e) }

  /** Task definitions no service uses, and instances whose subnet is not listed. */
  function UnusedTaskDefs(d: Data): seq<TaskDef> { FlatMap(d.taskDefs, DropIf(UsedTaskDef(d))) }
  function UnhostedEc2(d: Data): seq<Ec2> { FlatMap(d.ec2Instances, DropIf(HostedEc2(d))) }

  lemma KeptSize<R>(rows: seq<R>, keep: R -> bool, key: R -> string, ids: set<string>)
    requires UniqueBy(rows, key)
    requires ids == set r | r in rows && keep(r) :: key(r)
    ensures |ids| + |FlatMap(rows, DropIf(keep))| == |rows|
  {
    KeepOrDrop(rows, keep);
    SelectKeepsUnique(rows, KeepIf(keep), key, key);
    var kept := FlatMap(rows, KeepIf(keep));
    KeySetSize(kept, key);
    forall r ensures r in kept <==> r in rows && keep(r) { FlatMapMember(rows, KeepIf(keep), r); }
    assert ids == KeySet(kept, key);
    assert |kept| + |FlatMap(rows, DropIf(keep))| == |rows|;
    assert |KeySet(kept, key)| == |kept|;
  }

  lemma RowIds<R>(rows: seq<R>, key: R -> string, ids: set<string>)
    requires UniqueBy(rows, key) && ids == set r | r in rows :: key(r)
    ensures |ids| == |rows|
  {
    KeySetSize(rows, key);
    assert ids == KeySet(rows, key);
  }

  lemma NetworkIds(account: string, d: Data)
    requires UniqueIds(d)
    ensures |Ids(account, d, SubnetP)| == |d.subnets| && |Ids(account, d, ListenerP)| == |d.listeners|
    ensures |Ids(account, d, LbP)| == |d.loadBalancers| && |Ids(account, d, RouteTableP)| == |d.routeTables|
    ensures |Ids(account, d, SecurityGroupP)| == |d.securityGroups|
  {
    hide Placements;
    RowIds(d.subnets, IdOfSubnet, Ids(account, d, SubnetP));
    RowIds(d.listeners, IdOfListener, Ids(account, d, ListenerP));
    RowIds(d.loadBalancers, IdOfLb, Ids(account, d, LbP));
    RowIds(d.routeTables, IdOfRouteTable, Ids(account, d, RouteTableP));
    RowIds(d.securityGroups, IdOfPlaced, Ids(account, d, SecurityGroupP));
  }

  lemma StoreIds(account: string, d: Data)
    requires UniqueIds(d)
    ensures |Ids(account, d, RdsP)| == |d.rds| && |Ids(account, d, CacheP)| == |d.caches|
            && |Ids(account, d, LambdaP)| == |d.lambdas|
  {
    hide Placements;
    RowIds(d.rds, IdOfPlaced, Ids(account, d, RdsP));
    RowIds(d.caches, IdOfPlaced, Ids(account, d, CacheP));
    RowIds(d.lambdas, IdOfPlaced, Ids(account, d, LambdaP));
  }

  lemma ClusterIds(account: string, d: Data)
    requires UniqueIds(d)
    ensures |Ids(account, d, EksP)| == |d.eks| && |Ids(account, d, ClusterP)| == |d.clusters|
            && |Ids(account, d, ServiceP)| == |d.services|
  {
    hide Placements;
    RowIds(d.eks, IdOfPlaced, Ids(account, d, EksP));
    RowIds(d.clusters, IdOfCluster, Ids(account, d, ClusterP));
    RowIds(d.services, IdOfService, Ids(account, d, ServiceP));
  }

  lemma PartialIds(account: string, d: Data)
    requires UniqueIds(d)
    ensures |Ids(account, d, Ec2P)| + |UnhostedEc2(d)| == |d.ec2Instances|
    ensures |Ids(account, d, TaskDefP)| + |UnusedTaskDefs(d)| == |d.taskDefs|
  {
    hide Placements;
    KeptSize(d.ec2Instances, HostedEc2(d), IdOfEc2, Ids(account, d, Ec2P));
    KeptSize(d.taskDefs, UsedTaskDef(d), IdOfTaskDef, Ids(account, d, TaskDefP));
  }

  predicate NeedsUnassigned(account: string, d: Data) { HasUnassigned(account, Placements(account, d)) }

  lemma VpcNodeIds(account: string, d: Data)
    requires UniqueIds(d) && WellKeyed(account, d)
    ensures |Ids(account, d, Root)| == 1
    ensures |Ids(account, d, VpcP)| == |d.vpcs| + if NeedsUnassigned(account, d) then 1 else 0
  {
    hide Placements, HasUnassigned;
    RowIds(d.vpcs, IdOfVpc, VpcIds(d));
    if NeedsUnassigned(account, d) {
      assert Ids(account, d, VpcP) == VpcIds(d) + {UnassignedId(account)};
    } else {
      assert Ids(account, d, VpcP) == VpcIds(d);
    }
  }

  const ALL_PREFIXES: seq<Prefix> := FIXED_PREFIXES + GlobalPrefixes(GLOBAL_ORDER)

  lemma {:induction false} GlobalPrefixesAt(ks: seq<Inventory.GlobalKind>)
    ensures |GlobalPrefixes(ks)| == |ks| && forall i :: 0 <= i < |ks| ==> GlobalPrefixes(ks)[i] == GlobalP(ks[i])
  {
    if ks != [] {
      GlobalPrefixesAt(ks[1..]);
    }
  }

  function KindRank(k: Inventory.GlobalKind): nat
  {
    match k
    case S3Buckets => 0
    case CloudFront => 1
    case Route53 => 2
    case IamRoles => 3
    case CloudTrail => 4
    case CloudWatch => 5
    case GuardDuty => 6
    case KmsKeys => 7
    case Secrets => 8
    case EcrRepositories => 9
    case DynamoDb => 10
    case SqsQueues => 11
    case SnsTopics => 12
    case WafAcls => 13
    case ApiGateways => 14
  }

  function Rank(p: Prefix): nat
  {
    match p
    case Root => 0
    case VpcP => 1
    case SubnetP => 2
    case Ec2P => 3
    case ListenerP => 4
    case LbP => 5
    case RouteTableP => 6
    case SecurityGroupP => 7
    case RdsP => 8
    case CacheP => 9
    case LambdaP => 10
    case EksP => 11
    case ClusterP => 12
    case ServiceP => 13
    case TaskDefP => 14
    case GlobalP(k) => 15 + KindRank(k)
  }

  lemma AllPrefixAt(i: nat)
    requires i < 30
    ensures |ALL_PREFIXES| == 30
    ensures ALL_PREFIXES[i] == if i < 15 then FIXED_PREFIXES[i] else GlobalP(GLOBAL_ORDER[i - 15])
  {
    hide FIXED_PREFIXES, GLOBAL_ORDER;
    FixedRanks();
    GlobalRanks();
    GlobalPrefixesAt(GLOBAL_ORDER);
  }

  /** Each prefix stands at its rank, so none is repeated and none is missing. */
  lemma AllPrefixes()
    ensures |ALL_PREFIXES| == 30 && forall i :: 0 <= i < 30 ==> Rank(ALL_PREFIXES[i]) == i
    ensures forall p :: p in ALL_PREFIXES
  {
    hide FIXED_PREFIXES, GLOBAL_ORDER, ALL_PREFIXES, KindRank;
    FixedRanks();
    GlobalRanks();
    AllPrefixAt(0);
    forall i | 0 <= i < 30 ensures Rank(ALL_PREFIXES[i]) == i {
      AllPrefixAt(i);
    }
    forall p ensures p in ALL_PREFIXES {
      if p.GlobalP? {
        AllPrefixAt(15 + KindRank(p.kind));
      } else {
        AllPrefixAt(Rank(p));
      }
    }
  }

  lemma FixedRanks()
    ensures |FIXED_PREFIXES| == 15 && forall i :: 0 <= i < 15 ==> Rank(FIXED_PREFIXES[i]) == i
    ensures forall p: Prefix :: !p.GlobalP? ==> Rank(p) < 15 && FIXED_PREFIXES[Rank(p)] == p
  {
  }

  lemma GlobalRanks()
    ensures |GLOBAL_ORDER| == 15 && forall i :: 0 <= i < 15 ==> KindRank(GLOBAL_ORDER[i]) == i
    ensures forall k :: KindRank(k) < 15 && GLOBAL_ORDER[KindRank(k)] == k
  {
  }

  lemma NodesAreAllRefs(account: string, d: Data)
    ensures NodeRefs(ScriptOf(account, d)) == RefsUnderAll(account, d, ALL_PREFIXES)
  {
    hide Ids, Script, NodeRefs, RefsUnderAll, ALL_PREFIXES;
    AllPrefixes();
    forall r ensures r in NodeRefs(ScriptOf(account, d)) <==> r in RefsUnderAll(account, d, ALL_PREFIXES) {
      RefsExact(account, d, r);
      RefsUnderAllMember(account, d, ALL_PREFIXES, r);
    }
  }

  /** Every inventory row has one node, apart from unused task definitions and instances of unlisted
      subnets; the root and the unassigned bucket are the only other nodes. */
  lemma Conservation(account: string, d: Data)
    requires UniqueIds(d) && WellKeyed(account, d)
    ensures |GraphOf(account, d).nodes| + |UnusedTaskDefs(d)| + |UnhostedEc2(d)| ==
            TotalResources(d) + 1 + if NeedsUnassigned(account, d) then 1 else 0
  {
    hide Ids, Script, NodeRefs, RefsUnderAll, Exec, UnusedTaskDefs, UnhostedEc2, NeedsUnassigned, SumIds, UniqueIds,
         FIXED_PREFIXES, GLOBAL_ORDER, GlobalPrefixes, Rank, WellKeyed, SumGlobals;
    NodeCount(ScriptOf(account, d));
    NodesAreAllRefs(account, d);
    AllPrefixes();
    assert forall i, j :: 0 <= i < j < |ALL_PREFIXES| ==> Rank(ALL_PREFIXES[i]) != Rank(ALL_PREFIXES[j]);
    RefsUnderAllSize(account, d, ALL_PREFIXES);
    SumAppend(account, d, FIXED_PREFIXES, GlobalPrefixes(GLOBAL_ORDER));
    SumFixed(account, d);
    SumGlobalIds(account, d, GLOBAL_ORDER);
    NetworkIds(account, d);
    StoreIds(account, d);
    ClusterIds(account, d);
    PartialIds(account, d);
    VpcNodeIds(account, d);
  }

  // ----- the unassigned bucket -----

  predicate Listed(d: Data, vpcId: Option<string>)
  {
    vpcId.Some? && vpcId.value != "" && vpcId.value in VpcIds(d)
  }

  ghost predicate SomethingUnlisted(d: Data)
  {
    || (exists x :: x in d.subnets && !Listed(d, Some(x.vpcId)))
    || (exists x :: x in d.routeTables && !Listed(d, Some(x.vpcId)))
    || (exists x :: x in d.loadBalancers && !Listed(d, x.vpcId))
    || (exists x :: x in d.listeners && !Listed(d, LbVpc(d.loadBalancers, x.loadBalancerId)))
    || (exists x :: (x in d.securityGroups || x in d.rds || x in d.eks || x in d.lambdas
                     || x in d.caches) && !Listed(d, x.vpcId))
  }

  /** The unassigned bucket exists exactly when there are ECS clusters or services, or some
      resource whose VPC is absent or not listed. */
  lemma UnassignedIff(account: string, d: Data)
    requires WellKeyed(account, d)
    ensures NeedsUnassigned(account, d) <==> d.clusters != [] || d.services != [] || SomethingUnlisted(d)
  {
    if NeedsUnassigned(account, d) {
      var p :| p in Placements(account, d) && p.home == UnassignedId(account);
      UnassignedOrigin(account, d, p);
    }
    if d.clusters != [] || d.services != [] || SomethingUnlisted(d) {
      UnassignedNeeded(account, d);
    }
  }

  lemma UnassignedOrigin(account: string, d: Data, p: Placement)
    requires WellKeyed(account, d) && p in Placements(account, d) && p.home == UnassignedId(account)
    ensures d.clusters != [] || d.services != [] || SomethingUnlisted(d)
  {
    FlatMapMember(d.subnets, PlaceSubnet(account, d), p);
    FlatMapMember(d.securityGroups, PlaceIn(account, d, SecurityGroups, SecurityGroup), p);
    FlatMapMember(d.routeTables, PlaceRouteTable(account, d), p);
    FlatMapMember(d.loadBalancers, PlaceLb(account, d), p);
    FlatMapMember(d.listeners, PlaceListener(account, d), p);
    FlatMapMember(d.rds, PlaceIn(account, d, Databases, RdsInstance), p);
    FlatMapMember(d.clusters, PlaceCluster(account), p);
    FlatMapMember(d.taskDefs, PlaceTaskDef(account, d), p);
    FlatMapMember(d.services, PlaceService(account), p);
    FlatMapMember(d.eks, PlaceIn(account, d, Containers, EksCluster), p);
    FlatMapMember(d.lambdas, PlaceIn(account, d, Serverless, LambdaFunction), p);
    FlatMapMember(d.caches, PlaceIn(account, d, Caches, ElastiCacheCluster), p);
    hide FlatMap, VpcIds, LbVpc, Summarize;
  }

  lemma PlacedUnlisted<R>(account: string, rows: seq<R>, f: R -> seq<Placement>, x: R)
    requires x in rows && |f(x)| == 1 && f(x)[0].home == UnassignedId(account)
    ensures f(x)[0] in FlatMap(rows, f)
  {
    assert f(x)[0] in f(x);
    FlatMapMember(rows, f, f(x)[0]);
  }

  lemma UnassignedNeeded(account: string, d: Data)
    requires WellKeyed(account, d)
    requires d.clusters != [] || d.services != [] || SomethingUnlisted(d)
    ensures NeedsUnassigned(account, d)
  {
    hide FlatMap, VpcIds, LbVpc, Summarize;
    var p: Placement;
    if d.clusters != [] {
      p := PlaceCluster(account)(d.clusters[0])[0];
      PlacedUnlisted(account, d.clusters, PlaceCluster(account), d.clusters[0]);
    } else if d.services != [] {
      p := PlaceService(account)(d.services[0])[0];
      PlacedUnlisted(account, d.services, PlaceService(account), d.services[0]);
    } else if x :| x in d.subnets && !Listed(d, Some(x.vpcId)) {
      p := PlaceSubnet(account, d)(x)[0];
      PlacedUnlisted(account, d.subnets, PlaceSubnet(account, d), x);
    } else if x :| x in d.routeTables && !Listed(d, Some(x.vpcId)) {
      p := PlaceRouteTable(account, d)(x)[0];
      PlacedUnlisted(account, d.routeTables, PlaceRouteTable(account, d), x);
    } else if x :| x in d.loadBalancers && !Listed(d, x.vpcId) {
      p := PlaceLb(account, d)(x)[0];
      PlacedUnlisted(account, d.loadBalancers, PlaceLb(account, d), x);
    } else if x :| x in d.listeners && !Listed(d, LbVpc(d.loadBalancers, x.loadBalancerId)) {
      p := PlaceListener(account, d)(x)[0];
      PlacedUnlisted(account, d.listeners, PlaceListener(account, d), x);
    } else {
      p := PlacedRowUnlisted(account, d);
    }
    assert p in Placements(account, d);
  }

  lemma PlacedRowUnlisted(account: string, d: Data) returns (p: Placement)
    requires WellKeyed(account, d)
    requires exists x :: (x in d.securityGroups || x in d.rds || x in d.eks || x in d.lambdas
                          || x in d.caches) && !Listed(d, x.vpcId)
    ensures p in Placements(account, d) && p.home == UnassignedId(account)
  {
    hide FlatMap, VpcIds, LbVpc, Summarize;
    var x :| (x in d.securityGroups || x in d.rds || x in d.eks || x in d.lambdas
              || x in d.caches) && !Listed(d, x.vpcId);
    if x in d.securityGroups {
      p := PlaceIn(account, d, SecurityGroups, SecurityGroup)(x)[0];
      PlacedUnlisted(account, d.securityGroups, PlaceIn(account, d, SecurityGroups, SecurityGroup), x);
    } else if x in d.rds {
      p := PlaceIn(account, d, Databases, RdsInstance)(x)[0];
      PlacedUnlisted(account, d.rds, PlaceIn(account, d, Databases, RdsInstance), x);
    } else if x in d.eks {
      p := PlaceIn(account, d, Containers, EksCluster)(x)[0];
      PlacedUnlisted(account, d.eks, PlaceIn(account, d, Containers, EksCluster), x);
    } else if x in d.lambdas {
      p := PlaceIn(account, d, Serverless, LambdaFunction)(x)[0];
      PlacedUnlisted(account, d.lambdas, PlaceIn(account, d, Serverless, LambdaFunction), x);
    } else {
      p := PlaceIn(account, d, Caches, ElastiCacheCluster)(x)[0];
      PlacedUnlisted(account, d.caches, PlaceIn(account, d, Caches, ElastiCacheCluster), x);
    }
  }

  // ----- from the tables to the graph -----

  /** The graph served for an account, composed over collection, model and graph: closed, reachable,
      without two nodes in one place, counted by the summary, and showing the account's rows and nobody else's. */
  lemma AssessmentGraph(db: Db, account: string)
    requires UniqueKeys(db) && WellKeyed(account, CollectAllData(db, account))
             && PlainIds(account, CollectAllData(db, account))
    ensures var d := CollectAllData(db, account);
            var g := GraphOf(account, d);
            && NoDanglingEdge(g)
            && UniqueBy(g.nodes, (n: Node) => n.id) && UniqueBy(g.nodes, (n: Node) => (n.x, n.y))
            && UniqueBy(g.edges, (e: Edge) => (e.source, e.target, e.relationship))
            && |g.nodes| + |UnusedTaskDefs(d)| + |UnhostedEc2(d)| ==
               TotalResources(d) + 1 + (if NeedsUnassigned(account, d) then 1 else 0)
            && (forall r :: Print(r) in NodeIds(g) && !IsAnchor(r) ==> NearAnchor(g, r))
            && (forall r :: Print(r) in NodeIds(g) <==> Belongs(db, account, r) || IsUnassigned(account, d, r))
  {
    hide Belongs, IsUnassigned, Ids, Script, Exec, UnusedTaskDefs, UnhostedEc2, NeedsUnassigned, TotalResources,
         UniqueKeys, CollectAllData,
         WellKeyed, PlainIds, NodeIds, Print, NearAnchor;
    var d := CollectAllData(db, account);
    CollectGuarantees(db, account);
    ClosedGraph(account, d);
    NodesExact(ScriptOf(account, d));
    PositionsDistinct(ScriptOf(account, d));
    ScriptPlain(account, d);
    EdgesExact(ScriptOf(account, d));
    Conservation(account, d);
    forall r | Print(r) in NodeIds(GraphOf(account, d)) && !IsAnchor(r) ensures NearAnchor(GraphOf(account, d), r) {
      GraphReachable(account, d, r);
    }
    forall r
      ensures Print(r) in NodeIds(GraphOf(account, d)) <==> Belongs(db, account, r) || IsUnassigned(account, d, r)
    {
      NodesBelong(db, account, r);
    }
  }

  /** The three calls behind the assessment page. */
  method BuildAssessmentArchitecture(db: Db, account: string) returns (g: Graph)
    requires WellKeyed(account, CollectAllData(db, account))
    ensures g == GraphOf(account, CollectAllData(db, account))
  {
    var d := CollectAllData(db, account);
    var m := BuildArchitectureModel(account, d);
    g := BuildReactFlowGraph(m, d);
  }
}
