/** buildReactFlowGraph: the pushes it makes for a model and an inventory, and the loops that
    make them. */
module GraphCompiler {
  import opened Seqs
  import opened Inventory
  import opened ArchitectureModel
  import opened FlowGraph

  // ----- nodeMetaFromType -----

  function PrefixOf(t: ResourceType): Prefix
  {
    match t
    case Ec2Instance => Ec2P
    case LoadBalancerListener => ListenerP
    case LoadBalancerOf(_) => LbP
    case RouteTableType => RouteTableP
    case SecurityGroup => SecurityGroupP
    case RdsInstance => RdsP
    case ElastiCacheCluster => CacheP
    case LambdaFunction => LambdaP
    case EksCluster => EksP
    case EcsCluster => ClusterP
    case EcsService => ServiceP
    case EcsTaskDefinition => TaskDefP
    case GlobalType(k) => GlobalP(k)
  }

  function KindOf(t: ResourceType): Kind
  {
    match t
    case Ec2Instance => Ec2Kind
    case LoadBalancerListener => LoadBalancerKind
    case LoadBalancerOf(_) => LoadBalancerKind
    case RouteTableType => RouteTableKind
    case SecurityGroup => IdentityKind
    case RdsInstance => DatabaseKind
    case ElastiCacheCluster => DatabaseKind
    case LambdaFunction => ServerlessKind
    case EksCluster => ContainerKind
    case EcsCluster => ContainerKind
    case EcsService => ContainerKind
    case EcsTaskDefinition => ContainerKind
    case GlobalType(k) =>
      if k == IamRoles then IdentityKind else if k == ApiGateways then ServerlessKind else FlowGraph.GlobalKind
  }

  function ResourceRef(r: Resource): NodeRef { NodeRef(PrefixOf(r.rtype), r.id) }
  function RootRef(account: string): NodeRef { NodeRef(Root, account) }
  function VpcRef(id: string): NodeRef { NodeRef(VpcP, id) }
  function SubnetRef(id: string): NodeRef { NodeRef(SubnetP, id) }
  function LbNode(id: string): NodeRef { NodeRef(LbP, id) }
  function ServiceRef(id: string): NodeRef { NodeRef(ServiceP, id) }
  function TaskDefRef(id: string): NodeRef { NodeRef(TaskDefP, id) }
  function RoleRef(id: string): NodeRef { NodeRef(GlobalP(IamRoles), id) }

  function NodeFor(r: Resource): Push { PushNode(ResourceRef(r), KindOf(r.rtype), r.name) }

  // ----- specification: the pushes, in order -----

  function HostPushes(subnetId: string): Resource -> seq<Push>
  {
    (r: Resource) => [NodeFor(r), PushEdge(SubnetRef(subnetId), ResourceRef(r), "hosts", false)]
  }

  function SubnetOwner(d: Data, subnetId: string): Option<string>
  {
    match FindLast(d.subnets, (s: Subnet) => s.id == subnetId)
    case Some(s) => Some(s.vpcId)
    case None => None
  }

  function SubnetPushes(d: Data, vpcId: string): SubnetSummary -> seq<Push>
  {
    (s: SubnetSummary) =>
      [PushNode(SubnetRef(s.id), SubnetKind, s.name), PushEdge(VpcRef(vpcId), SubnetRef(s.id), "contains", false)]
      + (if SubnetOwner(d, s.id) == Some(vpcId) then [PushEdge(VpcRef(vpcId), SubnetRef(s.id), "network", false)]
         else [])
      + FlatMap(s.resources, HostPushes(s.id))
  }

  function ContainedPushes(vpcId: string, relationship: string): Resource -> seq<Push>
  {
    (r: Resource) => [NodeFor(r), PushEdge(VpcRef(vpcId), ResourceRef(r), relationship, false)]
  }

  function LbPushes(d: Data, vpcId: string): Resource -> seq<Push>
  {
    (r: Resource) => [NodeFor(r)] + LbEdge(d, vpcId, r)
  }

  /** A listener hangs off its load balancer, a load balancer off the VPC. */
  function LbEdge(d: Data, vpcId: string, r: Resource): seq<Push>
  {
    if r.rtype.LoadBalancerListener? then
      match FindFirst(d.listeners, (l: Listener) => l.id == r.id)
      case Some(l) => [PushEdge(LbNode(l.loadBalancerId), ResourceRef(r), "has-listener", false)]
      case None => []
    else [PushEdge(VpcRef(vpcId), ResourceRef(r), "contains-load-balancer", false)]
  }

  function BucketPushes(d: Data): Bucket -> seq<Push>
  {
    (b: Bucket) =>
      [PushNode(VpcRef(b.id), VpcKind, b.name)]
      + FlatMap(b.subnets, SubnetPushes(d, b.id))
      + FlatMap(b.routeTables, ContainedPushes(b.id, "has-route-table"))
      + FlatMap(b.securityGroups, ContainedPushes(b.id, "has-security-group"))
      + FlatMap(b.loadBalancers, LbPushes(d, b.id))
      + FlatMap(b.databases, ContainedPushes(b.id, "contains-database"))
      + FlatMap(b.caches, ContainedPushes(b.id, "contains-cache"))
      + FlatMap(b.containers, ContainedPushes(b.id, "contains-workload"))
      + FlatMap(b.serverless, ContainedPushes(b.id, "contains-serverless"))
  }

  function SubnetByAwsId(d: Data, awsId: string): Option<Subnet>
  {
    FindLast(d.subnets, (s: Subnet) => s.awsSubnetId == awsId)
  }

  function SubnetById(d: Data, id: string): Option<Subnet>
  {
    FindLast(d.subnets, (s: Subnet) => s.id == id)
  }

  function AssociatedSubnet(d: Data, id: string): Option<Subnet>
  {
    var byAwsId := SubnetByAwsId(d, id);
    if byAwsId.Some? then byAwsId else SubnetById(d, id)
  }

  function AssociationPushes(d: Data, routeTableId: string): Association -> seq<Push>
  {
    (a: Association) =>
      match AssociatedSubnet(d, a.subnetId)
      case Some(s) => [PushEdge(NodeRef(RouteTableP, routeTableId), SubnetRef(s.id),
                                if a.isMain then "main-route" else "routes-subnet", false)]
      case None => []
  }

  function RoutePushes(d: Data): RouteTable -> seq<Push>
  {
    (rt: RouteTable) => FlatMap(rt.associations, AssociationPushes(d, rt.id))
  }

  function AttachPushes(d: Data, lbId: string): string -> seq<Push>
  {
    (subnetId: string) =>
      match SubnetById(d, subnetId)
      case Some(s) => [PushEdge(LbNode(lbId), SubnetRef(s.id), "attached-to-subnet", false)]
      case None => []
  }

  function LbSubnetPushes(d: Data): LoadBalancer -> seq<Push>
  {
    (lb: LoadBalancer) => FlatMap(lb.subnetIds, AttachPushes(d, lb.id))
  }

  function RunsInPushes(d: Data, serviceId: string): string -> seq<Push>
  {
    (awsId: string) =>
      match SubnetByAwsId(d, awsId)
      case Some(s) => [PushEdge(ServiceRef(serviceId), SubnetRef(s.id), "runs-in-subnet", false)]
      case None => []
  }

  /** By ARN when one is given and known, else by name when one is given. */
  function ResolveLb(d: Data, r: LbRef): Option<LoadBalancer>
  {
    var byArn := if r.arn.Some? && r.arn.value != ""
                 then FindLast(d.loadBalancers, (lb: LoadBalancer) => lb.arn == r.arn.value) else None;
    if byArn.Some? then byArn
    else if r.name.Some? && r.name.value != ""
    then FindFirst(d.loadBalancers, (lb: LoadBalancer) => lb.name == r.name.value)
    else None
  }

  function TrafficPushes(d: Data, serviceId: string): LbRef -> seq<Push>
  {
    (r: LbRef) =>
      match ResolveLb(d, r)
      case Some(lb) => [PushEdge(LbNode(lb.id), ServiceRef(serviceId), "routes-traffic-to", true)]
      case None => []
  }

  function RolePushes(d: Data, source: NodeRef, roleId: Option<string>, relationship: string): seq<Push>
  {
    if roleId.Some? && roleId.value != "" then
      match FindLast(d.globals(IamRoles), (g: Global) => g.id == roleId.value)
      case Some(role) => [PushEdge(source, RoleRef(role.id), relationship, false)]
      case None => []
    else []
  }

  function TaskDefPushes(d: Data, s: Service): seq<Push>
  {
    match FindLast(d.taskDefs, (t: TaskDef) => t.id == s.taskDefinitionId)
    case Some(t) =>
      if InUse(d, t.id) then
        [PushEdge(ServiceRef(s.id), TaskDefRef(t.id), "uses-task-definition", false)]
        + RolePushes(d, TaskDefRef(t.id), t.executionRoleId, "execution-role")
        + RolePushes(d, TaskDefRef(t.id), t.taskRoleId, "task-role")
      else []
    case None => []
  }

  function ClusterServicePushes(d: Data, c: Cluster, s: Service): seq<Push>
  {
    [PushEdge(NodeRef(ClusterP, c.id), ServiceRef(s.id), "runs-service", true)]
    + FlatMap(s.subnets, RunsInPushes(d, s.id))
    + FlatMap(s.loadBalancers, TrafficPushes(d, s.id))
    + TaskDefPushes(d, s)
    + RolePushes(d, ServiceRef(s.id), s.serviceRoleId, "service-role")
  }

  /** Services of an unlisted cluster contribute nothing. */
  function ServicePushes(d: Data): Service -> seq<Push>
  {
    (s: Service) =>
      match FindLast(d.clusters, (c: Cluster) => c.id == s.clusterId)
      case Some(c) => ClusterServicePushes(d, c, s)
      case None => []
  }

  function Containment(k: Inventory.GlobalKind): string
  {
    match k
    case S3Buckets => "contains-s3"
    case CloudFront => "contains-cloudfront"
    case Route53 => "contains-route53"
    case IamRoles => "contains-iam"
    case CloudTrail => "contains-cloudtrail"
    case CloudWatch => "contains-cloudwatch"
    case GuardDuty => "contains-guardduty"
    case KmsKeys => "contains-kms"
    case Secrets => "contains-secrets"
    case EcrRepositories => "contains-ecr"
    case DynamoDb => "contains-dynamodb"
    case SqsQueues => "contains-sqs"
    case SnsTopics => "contains-sns"
    case WafAcls => "contains-waf"
    case ApiGateways => "contains-api"
  }

  function GlobalPushes(account: string, relationship: string): Resource -> seq<Push>
  {
    (r: Resource) => [NodeFor(r), PushEdge(RootRef(account), ResourceRef(r), relationship, false)]
  }

  function CollectionPushes(m: Model): Inventory.GlobalKind -> seq<Push>
  {
    (k: Inventory.GlobalKind) => FlatMap(m.globals(k), GlobalPushes(m.cloudAccountId, Containment(k)))
  }

  function LinkTo(source: NodeRef, relationship: string): Resource -> seq<Push>
  {
    (r: Resource) => [PushEdge(source, ResourceRef(r), relationship, false)]
  }

  function LinkAll(targets: seq<Resource>, relationship: string): Resource -> seq<Push>
  {
    (r: Resource) => FlatMap(targets, LinkTo(ResourceRef(r), relationship))
  }

  function IsLoadBalancer(r: Resource): seq<Resource> { if r.rtype.LoadBalancerOf? then [r] else [] }
  function IsLambda(r: Resource): seq<Resource> { if r.rtype.LambdaFunction? then [r] else [] }
  function LbsOf(b: Bucket): seq<Resource> { FlatMap(b.loadBalancers, IsLoadBalancer) }
  function LambdasOf(b: Bucket): seq<Resource> { FlatMap(b.serverless, IsLambda) }

  function Script(m: Model, d: Data): seq<Push>
  {
    [PushNode(RootRef(m.cloudAccountId), FlowGraph.GlobalKind, "Global Resources")]
    + FlatMap(m.vpcs, BucketPushes(d))
    + FlatMap(d.routeTables, RoutePushes(d))
    + FlatMap(d.loadBalancers, LbSubnetPushes(d))
    + FlatMap(d.services, ServicePushes(d))
    + FlatMap(GLOBAL_ORDER, CollectionPushes(m))
    + FlatMap(m.globals(Route53), LinkAll(m.globals(CloudFront), "dns"))
    + FlatMap(m.globals(CloudFront), LinkAll(FlatMap(m.vpcs, LbsOf), "http-s"))
    + FlatMap(m.globals(ApiGateways), LinkAll(FlatMap(m.vpcs, LambdasOf), "invoke"))
  }

  // ----- implementation -----

  method AddHosted(g: GraphBuilder, subnetId: string, rs: seq<Resource>)
    requires g.Valid()
    modifies g
    ensures g.Valid() && g.log == old(g.log) + FlatMap(rs, HostPushes(subnetId))
  {
    hide Represents;
    for i := 0 to |rs|
      invariant g.Valid() && g.log == old(g.log) + FlatMap(rs[..i], HostPushes(subnetId))
    {
      FlatMapStep(rs, i, HostPushes(subnetId));
      g.AddNode(ResourceRef(rs[i]), KindOf(rs[i].rtype), rs[i].name);
      g.AddEdge(SubnetRef(subnetId), ResourceRef(rs[i]), "hosts", false);
    }
    assert rs[..|rs|] == rs;
  }

  method AddSubnet(g: GraphBuilder, d: Data, vpcId: string, s: SubnetSummary)
    requires g.Valid()
    modifies g
    ensures g.Valid() && g.log == old(g.log) + SubnetPushes(d, vpcId)(s)
  {
    hide Represents;
    g.AddNode(SubnetRef(s.id), SubnetKind, s.name);
    g.AddEdge(VpcRef(vpcId), SubnetRef(s.id), "contains", false);
    if SubnetOwner(d, s.id) == Some(vpcId) {
      g.AddEdge(VpcRef(vpcId), SubnetRef(s.id), "network", false);
    }
    AddHosted(g, s.id, s.resources);
  }

  method AddSubnets(g: GraphBuilder, d: Data, vpcId: string, ss: seq<SubnetSummary>)
    requires g.Valid()
    modifies g
    ensures g.Valid() && g.log == old(g.log) + FlatMap(ss, SubnetPushes(d, vpcId))
  {
    hide Represents, SubnetPushes;
    for i := 0 to |ss|
      invariant g.Valid() && g.log == old(g.log) + FlatMap(ss[..i], SubnetPushes(d, vpcId))
    {
      FlatMapStep(ss, i, SubnetPushes(d, vpcId));
      AddSubnet(g, d, vpcId, ss[i]);
    }
    assert ss[..|ss|] == ss;
  }

  method AddContained(g: GraphBuilder, vpcId: string, rs: seq<Resource>, relationship: string)
    requires g.Valid()
    modifies g
    ensures g.Valid() && g.log == old(g.log) + FlatMap(rs, ContainedPushes(vpcId, relationship))
  {
    hide Represents;
    for i := 0 to |rs|
      invariant g.Valid() && g.log == old(g.log) + FlatMap(rs[..i], ContainedPushes(vpcId, relationship))
    {
      FlatMapStep(rs, i, ContainedPushes(vpcId, relationship));
      g.AddNode(ResourceRef(rs[i]), KindOf(rs[i].rtype), rs[i].name);
      g.AddEdge(VpcRef(vpcId), ResourceRef(rs[i]), relationship, false);
    }
    assert rs[..|rs|] == rs;
  }

  method AddLoadBalancer(g: GraphBuilder, d: Data, vpcId: string, r: Resource)
    requires g.Valid()
    modifies g
    ensures g.Valid() && g.log == old(g.log) + LbPushes(d, vpcId)(r)
  {
    hide Represents;
    g.AddNode(ResourceRef(r), KindOf(r.rtype), r.name);
    if r.rtype.LoadBalancerListener? {
      var row := FindFirst(d.listeners, (l: Listener) => l.id == r.id);
      if row.Some? {
        g.AddEdge(LbNode(row.value.loadBalancerId), ResourceRef(r), "has-listener", false);
      }
    } else {
      g.AddEdge(VpcRef(vpcId), ResourceRef(r), "contains-load-balancer", false);
    }
  }

  method AddLoadBalancers(g: GraphBuilder, d: Data, vpcId: string, rs: seq<Resource>)
    requires g.Valid()
    modifies g
    ensures g.Valid() && g.log == old(g.log) + FlatMap(rs, LbPushes(d, vpcId))
  {
    hide Represents;
    for i := 0 to |rs|
      invariant g.Valid() && g.log == old(g.log) + FlatMap(rs[..i], LbPushes(d, vpcId))
    {
      FlatMapStep(rs, i, LbPushes(d, vpcId));
      AddLoadBalancer(g, d, vpcId, rs[i]);
    }
    assert rs[..|rs|] == rs;
  }

  method AddBucket(g: GraphBuilder, d: Data, b: Bucket)
    requires g.Valid()
    modifies g
    ensures g.Valid() && g.log == old(g.log) + BucketPushes(d)(b)
  {
    hide Represents, FlatMap;
    g.AddNode(VpcRef(b.id), VpcKind, b.name);
    AddSubnets(g, d, b.id, b.subnets);
    AddContained(g, b.id, b.routeTables, "has-route-table");
    AddContained(g, b.id, b.securityGroups, "has-security-group");
    AddLoadBalancers(g, d, b.id, b.loadBalancers);
    AddContained(g, b.id, b.databases, "contains-database");
    AddContained(g, b.id, b.caches, "contains-cache");
    AddContained(g, b.id, b.containers, "contains-workload");
    AddContained(g, b.id, b.serverless, "contains-serverless");
  }

  method AddBuckets(g: GraphBuilder, d: Data, bs: seq<Bucket>)
    requires g.Valid()
    modifies g
    ensures g.Valid() && g.log == old(g.log) + FlatMap(bs, BucketPushes(d))
  {
    hide Represents, BucketPushes;
    for i := 0 to |bs|
      invariant g.Valid() && g.log == old(g.log) + FlatMap(bs[..i], BucketPushes(d))
    {
      FlatMapStep(bs, i, BucketPushes(d));
      AddBucket(g, d, bs[i]);
    }
    assert bs[..|bs|] == bs;
  }

  method AddAssociation(g: GraphBuilder, d: Data, routeTableId: string, a: Association)
    requires g.Valid()
    modifies g
    ensures g.Valid() && g.log == old(g.log) + AssociationPushes(d, routeTableId)(a)
  {
    hide Represents, AssociatedSubnet;
    var found := AssociatedSubnet(d, a.subnetId);
    if found.Some? {
      var relationship := if a.isMain then "main-route" else "routes-subnet";
      g.AddEdge(NodeRef(RouteTableP, routeTableId), SubnetRef(found.value.id), relationship, false);
    }
  }

  method AddAssociations(g: GraphBuilder, d: Data, rt: RouteTable)
    requires g.Valid()
    modifies g
    ensures g.Valid() && g.log == old(g.log) + FlatMap(rt.associations, AssociationPushes(d, rt.id))
  {
    hide Represents, AssociationPushes;
    for i := 0 to |rt.associations|
      invariant g.Valid() && g.log == old(g.log) + FlatMap(rt.associations[..i], AssociationPushes(d, rt.id))
    {
      FlatMapStep(rt.associations, i, AssociationPushes(d, rt.id));
      AddAssociation(g, d, rt.id, rt.associations[i]);
    }
    assert rt.associations[..|rt.associations|] == rt.associations;
  }

  lemma RoutesOf(d: Data, rt: RouteTable)
    ensures RoutePushes(d)(rt) == FlatMap(rt.associations, AssociationPushes(d, rt.id))
  {
  }

  method AddRoutes(g: GraphBuilder, d: Data)
    requires g.Valid()
    modifies g
    ensures g.Valid() && g.log == old(g.log) + FlatMap(d.routeTables, RoutePushes(d))
  {
    hide Represents, RoutePushes;
    for i := 0 to |d.routeTables|
      invariant g.Valid() && g.log == old(g.log) + FlatMap(d.routeTables[..i], RoutePushes(d))
    {
      FlatMapStep(d.routeTables, i, RoutePushes(d));
      RoutesOf(d, d.routeTables[i]);
      AddAssociations(g, d, d.routeTables[i]);
    }
    assert d.routeTables[..|d.routeTables|] == d.routeTables;
  }

  method AddAttachment(g: GraphBuilder, d: Data, lbId: string, subnetId: string)
    requires g.Valid()
    modifies g
    ensures g.Valid() && g.log == old(g.log) + AttachPushes(d, lbId)(subnetId)
  {
    hide Represents, SubnetById;
    var found := SubnetById(d, subnetId);
    if found.Some? {
      g.AddEdge(LbNode(lbId), SubnetRef(found.value.id), "attached-to-subnet", false);
    }
  }

  method AddLbSubnets(g: GraphBuilder, d: Data, lb: LoadBalancer)
    requires g.Valid()
    modifies g
    ensures g.Valid() && g.log == old(g.log) + FlatMap(lb.subnetIds, AttachPushes(d, lb.id))
  {
    hide Represents, AttachPushes;
    for i := 0 to |lb.subnetIds|
      invariant g.Valid() && g.log == old(g.log) + FlatMap(lb.subnetIds[..i], AttachPushes(d, lb.id))
    {
      FlatMapStep(lb.subnetIds, i, AttachPushes(d, lb.id));
      AddAttachment(g, d, lb.id, lb.subnetIds[i]);
    }
    assert lb.subnetIds[..|lb.subnetIds|] == lb.subnetIds;
  }

  method AddAttachments(g: GraphBuilder, d: Data)
    requires g.Valid()
    modifies g
    ensures g.Valid() && g.log == old(g.log) + FlatMap(d.loadBalancers, LbSubnetPushes(d))
  {
    hide Represents;
    for i := 0 to |d.loadBalancers|
      invariant g.Valid() && g.log == old(g.log) + FlatMap(d.loadBalancers[..i], LbSubnetPushes(d))
    {
      FlatMapStep(d.loadBalancers, i, LbSubnetPushes(d));
      AddLbSubnets(g, d, d.loadBalancers[i]);
    }
    assert d.loadBalancers[..|d.loadBalancers|] == d.loadBalancers;
  }

  method AddRunsInSubnet(g: GraphBuilder, d: Data, serviceId: string, awsId: string)
    requires g.Valid()
    modifies g
    ensures g.Valid() && g.log == old(g.log) + RunsInPushes(d, serviceId)(awsId)
  {
    hide Represents, SubnetByAwsId;
    var found := SubnetByAwsId(d, awsId);
    if found.Some? {
      g.AddEdge(ServiceRef(serviceId), SubnetRef(found.value.id), "runs-in-subnet", false);
    }
  }

  method AddRunsIn(g: GraphBuilder, d: Data, s: Service)
    requires g.Valid()
    modifies g
    ensures g.Valid() && g.log == old(g.log) + FlatMap(s.subnets, RunsInPushes(d, s.id))
  {
    hide Represents, RunsInPushes;
    for i := 0 to |s.subnets|
      invariant g.Valid() && g.log == old(g.log) + FlatMap(s.subnets[..i], RunsInPushes(d, s.id))
    {
      FlatMapStep(s.subnets, i, RunsInPushes(d, s.id));
      AddRunsInSubnet(g, d, s.id, s.subnets[i]);
    }
    assert s.subnets[..|s.subnets|] == s.subnets;
  }

  method AddTrafficFrom(g: GraphBuilder, d: Data, serviceId: string, r: LbRef)
    requires g.Valid()
    modifies g
    ensures g.Valid() && g.log == old(g.log) + TrafficPushes(d, serviceId)(r)
  {
    hide Represents, ResolveLb;
    var found := ResolveLb(d, r);
    if found.Some? {
      g.AddEdge(LbNode(found.value.id), ServiceRef(serviceId), "routes-traffic-to", true);
    }
  }

  method AddTraffic(g: GraphBuilder, d: Data, s: Service)
    requires g.Valid()
    modifies g
    ensures g.Valid() && g.log == old(g.log) + FlatMap(s.loadBalancers, TrafficPushes(d, s.id))
  {
    hide Represents, TrafficPushes;
    for i := 0 to |s.loadBalancers|
      invariant g.Valid() && g.log == old(g.log) + FlatMap(s.loadBalancers[..i], TrafficPushes(d, s.id))
    {
      FlatMapStep(s.loadBalancers, i, TrafficPushes(d, s.id));
      AddTrafficFrom(g, d, s.id, s.loadBalancers[i]);
    }
    assert s.loadBalancers[..|s.loadBalancers|] == s.loadBalancers;
  }

  method AddRole(g: GraphBuilder, d: Data, source: NodeRef, roleId: Option<string>, relationship: string)
    requires g.Valid()
    modifies g
    ensures g.Valid() && g.log == old(g.log) + RolePushes(d, source, roleId, relationship)
  {
    hide Represents;
    if roleId.Some? && roleId.value != "" {
      var role := FindLast(d.globals(IamRoles), (g: Global) => g.id == roleId.value);
      if role.Some? {
        g.AddEdge(source, RoleRef(role.value.id), relationship, false);
      }
    }
  }

  method AddTaskDef(g: GraphBuilder, d: Data, s: Service)
    requires g.Valid()
    modifies g
    ensures g.Valid() && g.log == old(g.log) + TaskDefPushes(d, s)
  {
    hide Represents;
    var t := FindLast(d.taskDefs, (t: TaskDef) => t.id == s.taskDefinitionId);
    if t.Some? && InUse(d, t.value.id) {
      g.AddEdge(ServiceRef(s.id), TaskDefRef(t.value.id), "uses-task-definition", false);
      AddRole(g, d, TaskDefRef(t.value.id), t.value.executionRoleId, "execution-role");
      AddRole(g, d, TaskDefRef(t.value.id), t.value.taskRoleId, "task-role");
    }
  }

  method AddService(g: GraphBuilder, d: Data, s: Service)
    requires g.Valid()
    modifies g
    ensures g.Valid() && g.log == old(g.log) + ServicePushes(d)(s)
  {
    hide Represents, ClusterServicePushes;
    var c := FindLast(d.clusters, (c: Cluster) => c.id == s.clusterId);
    if c.None? { return; }
    AddClusterService(g, d, c.value, s);
  }

  method AddClusterService(g: GraphBuilder, d: Data, c: Cluster, s: Service)
    requires g.Valid()
    modifies g
    ensures g.Valid() && g.log == old(g.log) + ClusterServicePushes(d, c, s)
  {
    hide Represents, FlatMap, TaskDefPushes, RolePushes;
    g.AddEdge(NodeRef(ClusterP, c.id), ServiceRef(s.id), "runs-service", true);
    AddRunsIn(g, d, s);
    AddTraffic(g, d, s);
    AddTaskDef(g, d, s);
    AddRole(g, d, ServiceRef(s.id), s.serviceRoleId, "service-role");
  }

  method AddServices(g: GraphBuilder, d: Data)
    requires g.Valid()
    modifies g
    ensures g.Valid() && g.log == old(g.log) + FlatMap(d.services, ServicePushes(d))
  {
    hide Represents, ServicePushes;
    for i := 0 to |d.services|
      invariant g.Valid() && g.log == old(g.log) + FlatMap(d.services[..i], ServicePushes(d))
    {
      FlatMapStep(d.services, i, ServicePushes(d));
      AddService(g, d, d.services[i]);
    }
    assert d.services[..|d.services|] == d.services;
  }

  method AddCollection(g: GraphBuilder, m: Model, k: Inventory.GlobalKind)
    requires g.Valid()
    modifies g
    ensures g.Valid() && g.log == old(g.log) + CollectionPushes(m)(k)
  {
    hide Represents;
    var account, rs, relationship := m.cloudAccountId, m.globals(k), Containment(k);
    for i := 0 to |rs|
      invariant g.Valid() && g.log == old(g.log) + FlatMap(rs[..i], GlobalPushes(account, relationship))
    {
      FlatMapStep(rs, i, GlobalPushes(account, relationship));
      g.AddNode(ResourceRef(rs[i]), KindOf(rs[i].rtype), rs[i].name);
      g.AddEdge(RootRef(account), ResourceRef(rs[i]), relationship, false);
    }
    assert rs[..|rs|] == rs;
  }

  method AddGlobals(g: GraphBuilder, m: Model)
    requires g.Valid()
    modifies g
    ensures g.Valid() && g.log == old(g.log) + FlatMap(GLOBAL_ORDER, CollectionPushes(m))
  {
    hide Represents, CollectionPushes;
    var kinds := GLOBAL_ORDER;
    for i := 0 to |kinds|
      invariant g.Valid() && g.log == old(g.log) + FlatMap(kinds[..i], CollectionPushes(m))
    {
      FlatMapStep(kinds, i, CollectionPushes(m));
      AddCollection(g, m, kinds[i]);
    }
    assert kinds[..|kinds|] == kinds;
  }

  method AddLinks(g: GraphBuilder, source: NodeRef, targets: seq<Resource>, relationship: string)
    requires g.Valid()
    modifies g
    ensures g.Valid() && g.log == old(g.log) + FlatMap(targets, LinkTo(source, relationship))
  {
    hide Represents;
    for i := 0 to |targets|
      invariant g.Valid() && g.log == old(g.log) + FlatMap(targets[..i], LinkTo(source, relationship))
    {
      FlatMapStep(targets, i, LinkTo(source, relationship));
      g.AddEdge(source, ResourceRef(targets[i]), relationship, false);
    }
    assert targets[..|targets|] == targets;
  }

  method AddProduct(g: GraphBuilder, sources: seq<Resource>, targets: seq<Resource>, relationship: string)
    requires g.Valid()
    modifies g
    ensures g.Valid() && g.log == old(g.log) + FlatMap(sources, LinkAll(targets, relationship))
  {
    hide Represents;
    for i := 0 to |sources|
      invariant g.Valid() && g.log == old(g.log) + FlatMap(sources[..i], LinkAll(targets, relationship))
    {
      FlatMapStep(sources, i, LinkAll(targets, relationship));
      AddLinks(g, ResourceRef(sources[i]), targets, relationship);
    }
    assert sources[..|sources|] == sources;
  }

  method BuildReactFlowGraph(m: Model, d: Data) returns (graph: Graph)
    ensures graph == Exec(Script(m, d))
  {
    var g := new GraphBuilder();
    g.AddNode(RootRef(m.cloudAccountId), FlowGraph.GlobalKind, "Global Resources");
    AddBuckets(g, d, m.vpcs);
    AddRoutes(g, d);
    AddAttachments(g, d);
    AddServices(g, d);
    AddGlobals(g, m);
    AddProduct(g, m.globals(Route53), m.globals(CloudFront), "dns");
    AddProduct(g, m.globals(CloudFront), FlatMap(m.vpcs, LbsOf), "http-s");
    AddProduct(g, m.globals(ApiGateways), FlatMap(m.vpcs, LambdasOf), "invoke");
    graph := Graph(g.nodes, g.edges);
  }
}
