/** What the edges of the graph mean: each stands for a relation between inventory rows, and every such
    relation has its edge. */
module GraphEdges {
  import opened Seqs
  import opened Inventory
  import opened ArchitectureModel
  import opened FlowGraph
  import opened GraphCompiler
  import opened GraphTheorems
  import opened GraphProperties

  datatype Link = Link(source: NodeRef, target: NodeRef, rel: string)

  // ----- the relations of an inventory -----

  predicate ListedGlobal(d: Data, k: Inventory.GlobalKind, r: NodeRef)
  {
    r.prefix == GlobalP(k) && exists g :: g in d.globals(k) && g.id == r.id
  }

  predicate ListedLb(d: Data, r: NodeRef) { r.prefix == LbP && exists lb :: lb in d.loadBalancers && lb.id == r.id }
  predicate ListedLambda(d: Data, r: NodeRef) { r.prefix == LambdaP && exists x :: x in d.lambdas && x.id == r.id }

  predicate RoleListed(d: Data, roleId: Option<string>, target: NodeRef)
  {
    roleId == Some(target.id) && target.id != "" && ListedGlobal(d, IamRoles, target)
  }

  /** The service's cluster is listed. */
  predicate Attached(d: Data, s: Service) { exists c :: c in d.clusters && c.id == s.clusterId }

  predicate PlacedIn(account: string, d: Data, rows: seq<Placed>, vpc: string, id: string)
  {
    exists x :: x in rows && x.id == id && Home(account, d, x.vpcId) == vpc
  }

  /** A VPC, or the unassigned bucket, contains the resources whose home it is. */
  ghost predicate VpcMeans(account: string, d: Data, e: Link)
  {
    var vpc, id := e.source.id, e.target.id;
    match e.target.prefix
    case SubnetP =>
      exists x :: && x in d.subnets && x.id == id && Home(account, d, Some(x.vpcId)) == vpc
                  && (e.rel == "contains" || (e.rel == "network" && SubnetOwner(d, id) == Some(vpc)))
    case RouteTableP => e.rel == "has-route-table"
      && exists x :: x in d.routeTables && x.id == id && Home(account, d, Some(x.vpcId)) == vpc
    case SecurityGroupP => e.rel == "has-security-group" && PlacedIn(account, d, d.securityGroups, vpc, id)
    case LbP => e.rel == "contains-load-balancer"
      && exists x :: x in d.loadBalancers && x.id == id && Home(account, d, x.vpcId) == vpc
    case RdsP => e.rel == "contains-database" && PlacedIn(account, d, d.rds, vpc, id)
    case CacheP => e.rel == "contains-cache" && PlacedIn(account, d, d.caches, vpc, id)
    case LambdaP => e.rel == "contains-serverless" && PlacedIn(account, d, d.lambdas, vpc, id)
    case EksP => e.rel == "contains-workload" && PlacedIn(account, d, d.eks, vpc, id)
    case ClusterP => e.rel == "contains-workload" && vpc == UnassignedId(account)
      && exists x :: x in d.clusters && x.id == id
    case ServiceP => e.rel == "contains-workload" && vpc == UnassignedId(account)
      && exists x :: x in d.services && x.id == id
    case TaskDefP =>
      e.rel == "contains-workload" && vpc == UnassignedId(account) && InUse(d, id)
        && exists x :: x in d.taskDefs && x.id == id
    case _ => false
  }

  ghost predicate HostMeans(d: Data, e: Link)
  {
    && e.rel == "hosts" && e.target.prefix == Ec2P
    && exists s, x :: && s in d.subnets && s.id == e.source.id
                      && x in d.ec2Instances && x.id == e.target.id && x.awsSubnetId == s.awsSubnetId
  }

  ghost predicate ListenerMeans(d: Data, e: Link)
  {
    && e.rel == "has-listener" && e.target.prefix == ListenerP
    && exists l :: l in d.listeners && l.id == e.target.id && l.loadBalancerId == e.source.id
  }

  ghost predicate AttachMeans(d: Data, lb: LoadBalancer, e: Link)
  {
    && e.source == LbNode(lb.id) && e.rel == "attached-to-subnet"
    && exists a, s :: a in lb.subnetIds && SubnetById(d, a) == Some(s) && e.target == SubnetRef(s.id)
  }

  ghost predicate RouteMeans(d: Data, rt: RouteTable, e: Link)
  {
    && e.source == NodeRef(RouteTableP, rt.id)
    && exists a, s :: && a in rt.associations && AssociatedSubnet(d, a.subnetId) == Some(s)
                      && e.target == SubnetRef(s.id)
                      && e.rel == if a.isMain then "main-route" else "routes-subnet"
  }

  ghost predicate RunsInMeans(d: Data, x: Service, e: Link)
  {
    && e.source == ServiceRef(x.id) && e.rel == "runs-in-subnet"
    && exists a, s :: a in x.subnets && SubnetByAwsId(d, a) == Some(s) && e.target == SubnetRef(s.id)
  }

  ghost predicate TrafficMeans(d: Data, x: Service, e: Link)
  {
    && e.target == ServiceRef(x.id) && e.rel == "routes-traffic-to"
    && exists a, lb :: a in x.loadBalancers && ResolveLb(d, a) == Some(lb) && e.source == LbNode(lb.id)
  }

  ghost predicate TaskDefMeans(d: Data, x: Service, e: Link)
  {
    exists t :: && t in d.taskDefs && t.id == x.taskDefinitionId
                && (|| e == Link(ServiceRef(x.id), TaskDefRef(t.id), "uses-task-definition")
                    || (e.source == TaskDefRef(t.id) && e.rel == "execution-role"
                        && RoleListed(d, t.executionRoleId, e.target))
                    || (e.source == TaskDefRef(t.id) && e.rel == "task-role" && RoleListed(d, t.taskRoleId, e.target)))
  }

  ghost predicate ServiceMeans(d: Data, x: Service, e: Link)
  {
    || e == Link(NodeRef(ClusterP, x.clusterId), ServiceRef(x.id), "runs-service")
    || RunsInMeans(d, x, e) || TrafficMeans(d, x, e) || TaskDefMeans(d, x, e)
    || (e.source == ServiceRef(x.id) && e.rel == "service-role" && RoleListed(d, x.serviceRoleId, e.target))
  }

  ghost predicate GlobalMeans(account: string, d: Data, e: Link)
  {
    e.source == RootRef(account) && exists k :: ListedGlobal(d, k, e.target) && e.rel == RootRelation(k)
  }

  /** How the account's root is related to a resource of this kind. */
  function RootRelation(k: Inventory.GlobalKind): string
  {
    match k
    case S3Buckets => "contains-s3"
    case CloudFront => "contains-cloudfront"
    case Route53 => "contains-route53"
    case IamRoles => "contains-iam"
    case CloudTrail => "contains-cloudtrail"
    case CloudWatch => "contains-cloudwatch"
    case GuardDuty => "contains-guardduty"
    case KmsKeys => "contains-kms"
    case Secrets => "contains-secrets"
    case EcrRepositories => "contains-ecr"
    case DynamoDb => "contains-dynamodb"
    case SqsQueues => "contains-sqs"
    case SnsTopics => "contains-sns"
    case WafAcls => "contains-waf"
    case ApiGateways => "contains-api"
  }

  lemma ContainmentNames(k: Inventory.GlobalKind)
    ensures Containment(k) == RootRelation(k)
  {
  }

  ghost predicate CrossMeans(d: Data, e: Link)
  {
    || (e.rel == "dns" && ListedGlobal(d, Route53, e.source) && ListedGlobal(d, CloudFront, e.target))
    || (e.rel == "http-s" && ListedGlobal(d, CloudFront, e.source) && ListedLb(d, e.target))
    || (e.rel == "invoke" && ListedGlobal(d, ApiGateways, e.source) && ListedLambda(d, e.target))
  }

  ghost predicate BucketMeans(account: string, d: Data, e: Link)
  {
    || (e.source.prefix == VpcP && VpcMeans(account, d, e))
    || (e.source.prefix == SubnetP && HostMeans(d, e))
    || (e.source.prefix == LbP && ListenerMeans(d, e))
  }

  /** Some rows of the inventory stand in the relation this edge shows. */
  ghost predicate Means(account: string, d: Data, e: Link)
  {
    || BucketMeans(account, d, e)
    || (exists rt :: rt in d.routeTables && RouteMeans(d, rt, e))
    || (exists lb :: lb in d.loadBalancers && AttachMeans(d, lb, e))
    || (exists x :: x in d.services && Attached(d, x) && ServiceMeans(d, x, e))
    || GlobalMeans(account, d, e)
    || CrossMeans(d, e)
  }

  // ----- pushes -----

  ghost predicate Says(ps: seq<Push>, e: Link)
  {
    exists p :: p in ps && p.PushEdge? && Link(p.source, p.target, p.relationship) == e
  }

  lemma SaysMap<T>(s: seq<T>, f: T -> seq<Push>, e: Link)
    ensures Says(FlatMap(s, f), e) <==> exists x :: x in s && Says(f(x), e)
  {
    if Says(FlatMap(s, f), e) {
      var p :| p in FlatMap(s, f) && p.PushEdge? && Link(p.source, p.target, p.relationship) == e;
      FlatMapMember(s, f, p);
    }
    if x :| x in s && Says(f(x), e) {
      var p :| p in f(x) && p.PushEdge? && Link(p.source, p.target, p.relationship) == e;
      FlatMapMember(s, f, p);
    }
  }

  lemma SaysConcat(a: seq<Push>, b: seq<Push>, e: Link)
    ensures Says(a + b, e) <==> Says(a, e) || Says(b, e)
  {
    if p :| p in a && p.PushEdge? && Link(p.source, p.target, p.relationship) == e { assert p in a + b; }
    if p :| p in b && p.PushEdge? && Link(p.source, p.target, p.relationship) == e { assert p in a + b; }
  }

  lemma SaysOne(s: NodeRef, t: NodeRef, r: string, animated: bool, e: Link)
    ensures Says([PushEdge(s, t, r, animated)], e) <==> e == Link(s, t, r)
  {
    assert PushEdge(s, t, r, animated) in [PushEdge(s, t, r, animated)];
  }

  lemma SaysNodeThen(n: Push, rest: seq<Push>, e: Link)
    requires n.PushNode?
    ensures Says([n] + rest, e) <==> Says(rest, e)
  {
    SaysConcat([n], rest, e);
  }

  // ----- routes, attachments, services -----

  lemma RouteSays(d: Data, rt: RouteTable, e: Link)
    ensures Says(RoutePushes(d)(rt), e) <==> RouteMeans(d, rt, e)
  {
    hide FlatMap, AssociatedSubnet;
    var f := AssociationPushes(d, rt.id);
    SaysMap(rt.associations, f, e);
    forall a: Association
      ensures Says(f(a), e) <==>
              e.source == NodeRef(RouteTableP, rt.id) && AssociatedSubnet(d, a.subnetId).Some? &&
              e.target == SubnetRef(AssociatedSubnet(d, a.subnetId).value.id)
                && e.rel == if a.isMain then "main-route" else "routes-subnet"
    {
      var s := AssociatedSubnet(d, a.subnetId);
      if s.Some? {
        var relationship := if a.isMain then "main-route" else "routes-subnet";
        SaysOne(NodeRef(RouteTableP, rt.id), SubnetRef(s.value.id), relationship, false, e);
      }
    }
  }

  lemma AttachSays(d: Data, lb: LoadBalancer, e: Link)
    ensures Says(LbSubnetPushes(d)(lb), e) <==> AttachMeans(d, lb, e)
  {
    hide FlatMap, SubnetById;
    var f := AttachPushes(d, lb.id);
    SaysMap(lb.subnetIds, f, e);
    forall a: string
      ensures Says(f(a), e) <==>
              e.source == LbNode(lb.id) && e.rel == "attached-to-subnet" && SubnetById(d, a).Some?
                && e.target == SubnetRef(SubnetById(d, a).value.id)
    {
      var s := SubnetById(d, a);
      if s.Some? { SaysOne(LbNode(lb.id), SubnetRef(s.value.id), "attached-to-subnet", false, e); }
    }
  }

  lemma RunsInSays(d: Data, x: Service, e: Link)
    ensures Says(FlatMap(x.subnets, RunsInPushes(d, x.id)), e) <==> RunsInMeans(d, x, e)
  {
    hide FlatMap, SubnetByAwsId;
    var f := RunsInPushes(d, x.id);
    SaysMap(x.subnets, f, e);
    forall a: string
      ensures Says(f(a), e) <==>
              e.source == ServiceRef(x.id) && e.rel == "runs-in-subnet" && SubnetByAwsId(d, a).Some?
                && e.target == SubnetRef(SubnetByAwsId(d, a).value.id)
    {
      var s := SubnetByAwsId(d, a);
      if s.Some? { SaysOne(ServiceRef(x.id), SubnetRef(s.value.id), "runs-in-subnet", false, e); }
    }
  }

  lemma TrafficSays(d: Data, x: Service, e: Link)
    ensures Says(FlatMap(x.loadBalancers, TrafficPushes(d, x.id)), e) <==> TrafficMeans(d, x, e)
  {
    hide FlatMap, ResolveLb;
    var f := TrafficPushes(d, x.id);
    SaysMap(x.loadBalancers, f, e);
    forall a: LbRef
      ensures Says(f(a), e) <==>
              e.target == ServiceRef(x.id) && e.rel == "routes-traffic-to" && ResolveLb(d, a).Some?
                && e.source == LbNode(ResolveLb(d, a).value.id)
    {
      var lb := ResolveLb(d, a);
      if lb.Some? { SaysOne(LbNode(lb.value.id), ServiceRef(x.id), "routes-traffic-to", true, e); }
    }
  }

  lemma RoleSays(d: Data, from: NodeRef, roleId: Option<string>, name: string, e: Link)
    ensures Says(RolePushes(d, from, roleId, name), e) <==>
              e.source == from && e.rel == name && RoleListed(d, roleId, e.target)
  {
    if roleId.Some? && roleId.value != "" {
      var role := FindLast(d.globals(IamRoles), (g: Global) => g.id == roleId.value);
      if role.Some? { SaysOne(from, RoleRef(role.value.id), name, false, e); }
    }
  }

  lemma TaskDefSays(d: Data, x: Service, e: Link)
    requires x in d.services && UniqueBy(d.taskDefs, IdOfTaskDef)
    ensures Says(TaskDefPushes(d, x), e) <==> TaskDefMeans(d, x, e)
  {
    hide RolePushes, RoleListed;
    var found := FindLast(d.taskDefs, (t: TaskDef) => t.id == x.taskDefinitionId);
    if found.Some? {
      var t := found.value;
      assert InUse(d, t.id);
      forall t' | t' in d.taskDefs && t'.id == t.id ensures t' == t { UniqueRow(d.taskDefs, IdOfTaskDef, t', t); }
      var uses := [PushEdge(ServiceRef(x.id), TaskDefRef(t.id), "uses-task-definition", false)];
      var roles := RolePushes(d, TaskDefRef(t.id), t.executionRoleId, "execution-role");
      SaysOne(ServiceRef(x.id), TaskDefRef(t.id), "uses-task-definition", false, e);
      SaysConcat(uses, roles, e);
      SaysConcat(uses + roles, RolePushes(d, TaskDefRef(t.id), t.taskRoleId, "task-role"), e);
      RoleSays(d, TaskDefRef(t.id), t.executionRoleId, "execution-role", e);
      RoleSays(d, TaskDefRef(t.id), t.taskRoleId, "task-role", e);
    }
  }

  lemma ServiceSays(d: Data, x: Service, e: Link)
    requires x in d.services && UniqueBy(d.taskDefs, IdOfTaskDef)
    ensures Says(ServicePushes(d)(x), e) <==> Attached(d, x) && ServiceMeans(d, x, e)
  {
    hide ClusterServicePushes, ServiceMeans;
    var c := FindLast(d.clusters, (c: Cluster) => c.id == x.clusterId);
    if c.Some? { ClusterServiceSays(d, c.value, x, e); }
  }

  lemma ClusterServiceSays(d: Data, c: Cluster, x: Service, e: Link)
    requires x in d.services && UniqueBy(d.taskDefs, IdOfTaskDef) && c.id == x.clusterId
    ensures Says(ClusterServicePushes(d, c, x), e) <==> ServiceMeans(d, x, e)
  {
    hide FlatMap, RolePushes, TaskDefPushes, RoleListed, TaskDefMeans, RunsInMeans, TrafficMeans, Says;
    var s1 := [PushEdge(NodeRef(ClusterP, c.id), ServiceRef(x.id), "runs-service", true)];
    var s2 := FlatMap(x.subnets, RunsInPushes(d, x.id));
    var s3 := FlatMap(x.loadBalancers, TrafficPushes(d, x.id));
    var s4 := TaskDefPushes(d, x);
    var s5 := RolePushes(d, ServiceRef(x.id), x.serviceRoleId, "service-role");
    SaysOne(NodeRef(ClusterP, c.id), ServiceRef(x.id), "runs-service", true, e);
    RunsInSays(d, x, e);
    TrafficSays(d, x, e);
    TaskDefSays(d, x, e);
    RoleSays(d, ServiceRef(x.id), x.serviceRoleId, "service-role", e);
    SaysConcat(s1, s2, e);
    SaysConcat(s1 + s2, s3, e);
    SaysConcat(s1 + s2 + s3, s4, e);
    SaysConcat(s1 + s2 + s3 + s4, s5, e);
  }

  // ----- global collections -----

  lemma GlobalRow(d: Data, k: Inventory.GlobalKind, r: NodeRef)
    ensures ListedGlobal(d, k, r) <==> exists x :: x in GlobalResources(d)(k) && ResourceRef(x) == r
  {
    if g :| g in d.globals(k) && r == NodeRef(GlobalP(k), g.id) {
      var x := Resource(g.id, GlobalType(k), g.name);
      FlatMapMember(d.globals(k), AsGlobal(k), x);
      assert ResourceRef(x) == r;
    }
    if x :| x in GlobalResources(d)(k) && ResourceRef(x) == r {
      FlatMapMember(d.globals(k), AsGlobal(k), x);
    }
  }

  lemma CollectionSays(account: string, d: Data, k: Inventory.GlobalKind, e: Link)
    ensures Says(CollectionPushes(BuildModel(account, d))(k), e) <==>
            e.source == RootRef(account) && ListedGlobal(d, k, e.target) && e.rel == Containment(k)
  {
    hide FlatMap, Placements, Order;
    var f := GlobalPushes(account, Containment(k));
    SaysMap(GlobalResources(d)(k), f, e);
    forall x: Resource ensures Says(f(x), e) <==> e == Link(RootRef(account), ResourceRef(x), Containment(k)) {
      var edge := [PushEdge(RootRef(account), ResourceRef(x), Containment(k), false)];
      assert f(x) == [NodeFor(x)] + edge;
      SaysNodeThen(NodeFor(x), edge, e);
      SaysOne(RootRef(account), ResourceRef(x), Containment(k), false, e);
    }
    GlobalRow(d, k, e.target);
  }

  lemma LinksSay(sources: seq<Resource>, targets: seq<Resource>, rel: string, e: Link)
    ensures Says(FlatMap(sources, LinkAll(targets, rel)), e) <==>
            e.rel == rel && (exists x :: x in sources && ResourceRef(x) == e.source)
              && exists y :: y in targets && ResourceRef(y) == e.target
  {
    hide FlatMap;
    SaysMap(sources, LinkAll(targets, rel), e);
    forall x: Resource
      ensures Says(LinkAll(targets, rel)(x), e) <==>
                e.rel == rel && ResourceRef(x) == e.source && exists y :: y in targets && ResourceRef(y) == e.target
    {
      SaysMap(targets, LinkTo(ResourceRef(x), rel), e);
      forall y: Resource ensures Says(LinkTo(ResourceRef(x), rel)(y), e) <==>
          e == Link(ResourceRef(x), ResourceRef(y), rel) {
        SaysOne(ResourceRef(x), ResourceRef(y), rel, false, e);
      }
    }
  }
}
