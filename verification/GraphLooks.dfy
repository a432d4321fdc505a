/** How the graph looks: each node carries the id and name of its row and stands in the column of its kind, and an edge
    is animated exactly when it shows traffic or a running service. */
module GraphLooks {
  import opened Seqs
  import opened Inventory
  import opened ArchitectureModel
  import opened FlowGraph
  import opened GraphCompiler
  import opened GraphTheorems
  import opened ModelRows

  // ----- the row behind a node -----

  ghost predicate NamedPlaced(rows: seq<Placed>, id: string, name: string)
  {
    exists x :: x in rows && x.id == id && x.name == name
  }

  /** A row with the node's id has this name. */
  ghost predicate Captioned(account: string, d: Data, ref: NodeRef, name: string)
  {
    match ref.prefix
    case Root => ref.id == account && name == "Global Resources"
    case VpcP =>
      || (exists v :: v in d.vpcs && v.id == ref.id && v.name == name)
      || (ref.id == account + "-unassigned" && name == "Unassigned Resources")
    case SubnetP => exists s :: s in d.subnets && s.id == ref.id && s.name == name
    case Ec2P => exists e :: e in d.ec2Instances && e.id == ref.id && e.name == name
    case ListenerP => exists l :: l in d.listeners && l.id == ref.id && l.name == name
    case LbP => exists lb :: lb in d.loadBalancers && lb.id == ref.id && lb.name == name
    case RouteTableP => exists r :: r in d.routeTables && r.id == ref.id && r.name == name
    case SecurityGroupP => NamedPlaced(d.securityGroups, ref.id, name)
    case RdsP => NamedPlaced(d.rds, ref.id, name)
    case CacheP => NamedPlaced(d.caches, ref.id, name)
    case LambdaP => NamedPlaced(d.lambdas, ref.id, name)
    case EksP => NamedPlaced(d.eks, ref.id, name)
    case ClusterP => exists c :: c in d.clusters && c.id == ref.id && c.name == name
    case ServiceP => exists s :: s in d.services && s.id == ref.id && s.name == name
    case TaskDefP => exists t :: t in d.taskDefs && t.id == ref.id && t.name == name
    case GlobalP(k) => exists g :: g in d.globals(k) && g.id == ref.id && g.name == name
  }

  /** Where the nodes of a kind stand. */
  function ColumnOf(p: Prefix): nat
  {
    match p
    case Root => 0
    case VpcP => 260
    case SubnetP => 520
    case RouteTableP => 780
    case LbP => 1040
    case ListenerP => 1040
    case Ec2P => 1300
    case EksP => 1560
    case ClusterP => 1560
    case ServiceP => 1560
    case TaskDefP => 1560
    case RdsP => 1820
    case CacheP => 1820
    case LambdaP => 2080
    case SecurityGroupP => 2340
    case GlobalP(k) => if k == IamRoles then 2340 else if k == ApiGateways then 2080 else 0
  }

  /** The text before the colon of a node's id. */
  function LabelOf(p: Prefix): string
  {
    match p
    case Root => "global"
    case VpcP => "vpc"
    case SubnetP => "subnet"
    case RouteTableP => "rt"
    case LbP => "lb"
    case ListenerP => "lb-listener"
    case Ec2P => "ec2"
    case EksP => "eks-cluster"
    case ClusterP => "ecs-cluster"
    case ServiceP => "ecs-service"
    case TaskDefP => "ecs-taskdef"
    case RdsP => "rds"
    case CacheP => "cache"
    case LambdaP => "lambda"
    case SecurityGroupP => "sg"
    case GlobalP(k) => KindLabel(k)
  }

  function KindLabel(k: Inventory.GlobalKind): string
  {
    match k
    case S3Buckets => "s3"
    case CloudFront => "cloudfront"
    case Route53 => "route53"
    case ApiGateways => "api-gw"
    case IamRoles => "iam"
    case CloudTrail => "cloudtrail"
    case CloudWatch => "cloudwatch"
    case GuardDuty => "guardduty"
    case KmsKeys => "kms"
    case Secrets => "secret"
    case EcrRepositories => "ecr"
    case DynamoDb => "dynamodb"
    case SqsQueues => "sqs"
    case SnsTopics => "sns"
    case WafAcls => "waf"
  }

  lemma LabelIs(p: Prefix)
    ensures PrefixText(p) == LabelOf(p)
  {
  }

  predicate Moves(relationship: string) { relationship == "runs-service" || relationship == "routes-traffic-to" }

  // ----- pushes -----

  ghost predicate Looks(account: string, d: Data, p: Push)
  {
    match p
    case PushNode(ref, kind, caption) => Captioned(account, d, ref, caption) && ColumnX(kind) == ColumnOf(ref.prefix)
    case PushEdge(_, _, rel, animated) => animated <==> Moves(rel)
  }

  ghost predicate AllLook(account: string, d: Data, ps: seq<Push>) { forall p :: p in ps ==> Looks(account, d, p) }

  lemma AllLookMap<T>(account: string, d: Data, s: seq<T>, f: T -> seq<Push>)
    requires forall x :: x in s ==> AllLook(account, d, f(x))
    ensures AllLook(account, d, FlatMap(s, f))
  {
    hide Looks;
    forall p | p in FlatMap(s, f) ensures Looks(account, d, p) { FlatMapMember(s, f, p); }
  }

  ghost predicate ResourceLooks(account: string, d: Data, r: Resource) { Looks(account, d, NodeFor(r)) }

  lemma SlotLooks(account: string, d: Data, slot: Slot, r: Resource, home: string)
    requires SlotRow(account, d, slot, r, home)
    ensures ResourceLooks(account, d, r)
  {
    hide At, ListenerAt;
  }

  lemma InstanceLooks(account: string, d: Data, s: Subnet, r: Resource)
    requires r in Summarize(d, s).resources
    ensures ResourceLooks(account, d, r)
  {
    SummaryOf(d, s);
    hide Summarize;
  }

  lemma GlobalLooks(account: string, d: Data, k: Inventory.GlobalKind, r: Resource)
    requires r in BuildModel(account, d).globals(k)
    ensures ResourceLooks(account, d, r)
  {
    GlobalRows(account, d, k, r);
    hide BuildModel;
  }

  lemma ContainedLook(account: string, d: Data, vpcId: string, rs: seq<Resource>, rel: string)
    requires (forall r :: r in rs ==> ResourceLooks(account, d, r)) && !Moves(rel)
    ensures AllLook(account, d, FlatMap(rs, ContainedPushes(vpcId, rel)))
  {
    hide NodeFor, FlatMap;
    forall r | r in rs ensures AllLook(account, d, ContainedPushes(vpcId, rel)(r)) {
      assert ContainedPushes(vpcId, rel)(r) == [NodeFor(r), PushEdge(VpcRef(vpcId), ResourceRef(r), rel, false)];
    }
    AllLookMap(account, d, rs, ContainedPushes(vpcId, rel));
  }

  lemma LbsLook(account: string, d: Data, vpcId: string, rs: seq<Resource>)
    requires forall r :: r in rs ==> ResourceLooks(account, d, r)
    ensures AllLook(account, d, FlatMap(rs, LbPushes(d, vpcId)))
  {
    hide NodeFor, FlatMap;
    forall r | r in rs ensures AllLook(account, d, LbPushes(d, vpcId)(r)) {
      assert LbPushes(d, vpcId)(r) == [NodeFor(r)] + LbEdge(d, vpcId, r);
      assert AllLook(account, d, LbEdge(d, vpcId, r));
    }
    AllLookMap(account, d, rs, LbPushes(d, vpcId));
  }

  lemma HostsLook(account: string, d: Data, subnetId: string, rs: seq<Resource>)
    requires forall r :: r in rs ==> ResourceLooks(account, d, r)
    ensures AllLook(account, d, FlatMap(rs, HostPushes(subnetId)))
  {
    hide NodeFor, FlatMap;
    forall r | r in rs ensures AllLook(account, d, HostPushes(subnetId)(r)) {
      assert HostPushes(subnetId)(r) == [NodeFor(r), PushEdge(SubnetRef(subnetId), ResourceRef(r), "hosts", false)];
    }
    AllLookMap(account, d, rs, HostPushes(subnetId));
  }

  lemma SubnetLooks(account: string, d: Data, vpcId: string, s: Subnet)
    requires s in d.subnets
    ensures AllLook(account, d, SubnetPushes(d, vpcId)(Summarize(d, s)))
  {
    var x := Summarize(d, s);
    forall r | r in x.resources ensures ResourceLooks(account, d, r) { InstanceLooks(account, d, s, r); }
    HostsLook(account, d, x.id, x.resources);
    assert x.id == s.id && x.name == s.name;
    hide FlatMap, Summarize, SubnetOwner, ResourceLooks;
    assert Looks(account, d, PushNode(SubnetRef(x.id), SubnetKind, x.name));
  }

  lemma BucketLooks(account: string, d: Data, b: Bucket)
    requires UniqueBy(d.vpcs, IdOfVpc) && UniqueBy(d.loadBalancers, IdOfLb) && b in BuildModel(account, d).vpcs
    ensures AllLook(account, d, BucketPushes(d)(b))
  {
    hide BuildModel, UniqueBy, FlatMap, ResourceLooks, Looks, SubnetPushes, ContainedPushes, LbPushes, SlotRow, AllLook;
    forall slot, r | r in b.Get(slot) ensures ResourceLooks(account, d, r) { HeldLooks(account, d, b, slot, r); }
    forall x | x in b.subnets ensures AllLook(account, d, SubnetPushes(d, b.id)(x)) {
      SummaryLooks(account, d, b, x);
    }
    AllLookMap(account, d, b.subnets, SubnetPushes(d, b.id));
    ContainedLook(account, d, b.id, b.Get(RouteTables), "has-route-table");
    ContainedLook(account, d, b.id, b.Get(SecurityGroups), "has-security-group");
    LbsLook(account, d, b.id, b.Get(LoadBalancers));
    ContainedLook(account, d, b.id, b.Get(Databases), "contains-database");
    ContainedLook(account, d, b.id, b.Get(Caches), "contains-cache");
    ContainedLook(account, d, b.id, b.Get(Containers), "contains-workload");
    ContainedLook(account, d, b.id, b.Get(Serverless), "contains-serverless");
    RootLooks(account, d, b);
    BucketPartsLook(account, d, b);
  }

  lemma HeldLooks(account: string, d: Data, b: Bucket, slot: Slot, r: Resource)
    requires UniqueBy(d.vpcs, IdOfVpc) && UniqueBy(d.loadBalancers, IdOfLb) && b in BuildModel(account, d).vpcs
    requires r in b.Get(slot)
    ensures ResourceLooks(account, d, r)
  {
    hide BuildModel, UniqueBy, ResourceLooks, SlotRow;
    ModelHolds(account, d, b.id, InSlot(slot, r));
    assert HasItem(b, InSlot(slot, r));
    SlotLooks(account, d, slot, r, b.id);
  }

  lemma SummaryLooks(account: string, d: Data, b: Bucket, x: SubnetSummary)
    requires UniqueBy(d.vpcs, IdOfVpc) && UniqueBy(d.loadBalancers, IdOfLb) && b in BuildModel(account, d).vpcs
    requires x in b.subnets
    ensures AllLook(account, d, SubnetPushes(d, b.id)(x))
  {
    hide BuildModel, UniqueBy, At, Summarize, AllLook, SubnetPushes;
    ModelHolds(account, d, b.id, InSubnets(x));
    assert HasItem(b, InSubnets(x));
    var s :| s in d.subnets && x == Summarize(d, s);
    SubnetLooks(account, d, b.id, s);
  }

  lemma RootLooks(account: string, d: Data, b: Bucket)
    requires UniqueBy(d.vpcs, IdOfVpc) && UniqueBy(d.loadBalancers, IdOfLb) && b in BuildModel(account, d).vpcs
    ensures Looks(account, d, PushNode(VpcRef(b.id), VpcKind, b.name))
  {
    hide BuildModel, UniqueBy, ItemRow, HasItem;
    ModelHolds(account, d, b.id, InSlot(Caches, Resource("", SecurityGroup, "")));
    assert BucketRow(account, d, b);
  }

  lemma BucketPartsLook(account: string, d: Data, b: Bucket)
    requires Looks(account, d, PushNode(VpcRef(b.id), VpcKind, b.name))
    requires AllLook(account, d, FlatMap(b.subnets, SubnetPushes(d, b.id)))
    requires AllLook(account, d, FlatMap(b.routeTables, ContainedPushes(b.id, "has-route-table")))
    requires AllLook(account, d, FlatMap(b.securityGroups, ContainedPushes(b.id, "has-security-group")))
    requires AllLook(account, d, FlatMap(b.loadBalancers, LbPushes(d, b.id)))
    requires AllLook(account, d, FlatMap(b.databases, ContainedPushes(b.id, "contains-database")))
    requires AllLook(account, d, FlatMap(b.caches, ContainedPushes(b.id, "contains-cache")))
    requires AllLook(account, d, FlatMap(b.containers, ContainedPushes(b.id, "contains-workload")))
    requires AllLook(account, d, FlatMap(b.serverless, ContainedPushes(b.id, "contains-serverless")))
    ensures AllLook(account, d, BucketPushes(d)(b))
  {
    hide FlatMap, Looks;
  }

  // ----- edges between tables -----

  lemma RolesLook(account: string, d: Data, source: NodeRef, roleId: Option<string>, rel: string)
    requires !Moves(rel)
    ensures AllLook(account, d, RolePushes(d, source, roleId, rel))
  {
  }

  lemma ServiceLooks(account: string, d: Data, s: Service)
    ensures AllLook(account, d, ServicePushes(d)(s))
  {
    hide FlatMap, RolePushes, SubnetByAwsId, ResolveLb;
    AllLookMap(account, d, s.subnets, RunsInPushes(d, s.id));
    AllLookMap(account, d, s.loadBalancers, TrafficPushes(d, s.id));
    RolesLook(account, d, ServiceRef(s.id), s.serviceRoleId, "service-role");
    forall t: TaskDef
      ensures AllLook(account, d, RolePushes(d, TaskDefRef(t.id), t.executionRoleId, "execution-role"))
    {
      RolesLook(account, d, TaskDefRef(t.id), t.executionRoleId, "execution-role");
    }
    forall t: TaskDef ensures AllLook(account, d, RolePushes(d, TaskDefRef(t.id), t.taskRoleId, "task-role")) {
      RolesLook(account, d, TaskDefRef(t.id), t.taskRoleId, "task-role");
    }
    assert AllLook(account, d, TaskDefPushes(d, s));
  }

  lemma TablesLook(account: string, d: Data)
    ensures AllLook(account, d, FlatMap(d.routeTables, RoutePushes(d)))
    ensures AllLook(account, d, FlatMap(d.loadBalancers, LbSubnetPushes(d)))
    ensures AllLook(account, d, FlatMap(d.services, ServicePushes(d)))
  {
    hide FlatMap, ServicePushes, AssociatedSubnet, SubnetById;
    forall rt: RouteTable ensures AllLook(account, d, RoutePushes(d)(rt)) {
      AllLookMap(account, d, rt.associations, AssociationPushes(d, rt.id));
    }
    AllLookMap(account, d, d.routeTables, RoutePushes(d));
    forall lb: LoadBalancer ensures AllLook(account, d, LbSubnetPushes(d)(lb)) {
      AllLookMap(account, d, lb.subnetIds, AttachPushes(d, lb.id));
    }
    AllLookMap(account, d, d.loadBalancers, LbSubnetPushes(d));
    forall s: Service ensures AllLook(account, d, ServicePushes(d)(s)) { ServiceLooks(account, d, s); }
    AllLookMap(account, d, d.services, ServicePushes(d));
  }

  lemma LinksLook(account: string, d: Data, sources: seq<Resource>, targets: seq<Resource>, rel: string)
    requires !Moves(rel)
    ensures AllLook(account, d, FlatMap(sources, LinkAll(targets, rel)))
  {
    hide FlatMap;
    forall r: Resource ensures AllLook(account, d, LinkAll(targets, rel)(r)) {
      AllLookMap(account, d, targets, LinkTo(ResourceRef(r), rel));
    }
    AllLookMap(account, d, sources, LinkAll(targets, rel));
  }

  lemma CollectionsLook(account: string, d: Data)
    ensures AllLook(account, d, FlatMap(GLOBAL_ORDER, CollectionPushes(BuildModel(account, d))))
  {
    hide FlatMap, BuildModel, NodeFor, Looks;
    var m := BuildModel(account, d);
    forall k: Inventory.GlobalKind ensures AllLook(account, d, CollectionPushes(m)(k)) {
      StillContainment(account, d, k);
      forall r | r in m.globals(k)
        ensures AllLook(account, d, GlobalPushes(m.cloudAccountId, Containment(k))(r))
      {
        GlobalLooks(account, d, k, r);
        assert Looks(account, d, PushEdge(RootRef(m.cloudAccountId), ResourceRef(r), Containment(k), false));
      }
      AllLookMap(account, d, m.globals(k), GlobalPushes(m.cloudAccountId, Containment(k)));
    }
    AllLookMap(account, d, GLOBAL_ORDER, CollectionPushes(m));
  }

  lemma StillContainment(account: string, d: Data, k: Inventory.GlobalKind)
    ensures forall s, t :: Looks(account, d, PushEdge(s, t, Containment(k), false))
  {
    assert Containment(k)[0] == 'c';
  }

  lemma BucketsLook(account: string, d: Data)
    requires UniqueBy(d.vpcs, IdOfVpc) && UniqueBy(d.loadBalancers, IdOfLb)
    ensures AllLook(account, d, FlatMap(BuildModel(account, d).vpcs, BucketPushes(d)))
  {
    hide FlatMap, BuildModel, BucketPushes, AllLook, UniqueBy;
    var bs := BuildModel(account, d).vpcs;
    forall b | b in bs ensures AllLook(account, d, BucketPushes(d)(b)) { BucketLooks(account, d, b); }
    AllLookMap(account, d, bs, BucketPushes(d));
  }

  lemma TopLooks(account: string, d: Data)
    ensures var m := BuildModel(account, d);
            Looks(account, d, PushNode(RootRef(m.cloudAccountId), FlowGraph.GlobalKind, "Global Resources"))
  {
    RootIds(account, d);
    hide BuildModel;
  }

  lemma CrossLook(account: string, d: Data, m: Model)
    ensures AllLook(account, d, FlatMap(m.globals(Route53), LinkAll(m.globals(CloudFront), "dns")))
    ensures AllLook(account, d, FlatMap(m.globals(CloudFront), LinkAll(FlatMap(m.vpcs, LbsOf), "http-s")))
    ensures AllLook(account, d, FlatMap(m.globals(ApiGateways), LinkAll(FlatMap(m.vpcs, LambdasOf), "invoke")))
  {
    hide FlatMap, AllLook;
    LinksLook(account, d, m.globals(Route53), m.globals(CloudFront), "dns");
    LinksLook(account, d, m.globals(CloudFront), FlatMap(m.vpcs, LbsOf), "http-s");
    LinksLook(account, d, m.globals(ApiGateways), FlatMap(m.vpcs, LambdasOf), "invoke");
  }

  lemma PartsLook(account: string, d: Data, m: Model)
    requires Looks(account, d, PushNode(RootRef(m.cloudAccountId), FlowGraph.GlobalKind, "Global Resources"))
    requires AllLook(account, d, FlatMap(m.vpcs, BucketPushes(d)))
    requires AllLook(account, d, FlatMap(d.routeTables, RoutePushes(d)))
    requires AllLook(account, d, FlatMap(d.loadBalancers, LbSubnetPushes(d)))
    requires AllLook(account, d, FlatMap(d.services, ServicePushes(d)))
    requires AllLook(account, d, FlatMap(GLOBAL_ORDER, CollectionPushes(m)))
    requires AllLook(account, d, FlatMap(m.globals(Route53), LinkAll(m.globals(CloudFront), "dns")))
    requires AllLook(account, d, FlatMap(m.globals(CloudFront), LinkAll(FlatMap(m.vpcs, LbsOf), "http-s")))
    requires AllLook(account, d, FlatMap(m.globals(ApiGateways), LinkAll(FlatMap(m.vpcs, LambdasOf), "invoke")))
    ensures AllLook(account, d, Script(m, d))
  {
    hide FlatMap, Looks;
  }

  /** Every push of the script looks as it should. */
  lemma ScriptLooks(account: string, d: Data)
    requires UniqueBy(d.vpcs, IdOfVpc) && UniqueBy(d.loadBalancers, IdOfLb)
    ensures AllLook(account, d, Script(BuildModel(account, d), d))
  {
    hide *;
    var m := BuildModel(account, d);
    TopLooks(account, d);
    BucketsLook(account, d);
    TablesLook(account, d);
    CollectionsLook(account, d);
    CrossLook(account, d, m);
    PartsLook(account, d, m);
  }

  // ----- the finished graph -----

  lemma {:induction false} KeptPushes(log: seq<Push>)
    ensures forall n :: n in Exec(log).nodes ==> exists p :: p in log && NodeOf(p, n)
    ensures forall e :: e in Exec(log).edges ==> exists p :: p in log && EdgeOf(p, e)
  {
    hide Print, EdgeId, ColumnX, RowY, CountColumn;
    if log != [] {
      var front, last := log[..|log| - 1], log[|log| - 1];
      KeptPushes(front);
      assert log == front + [last];
      forall n | n in Exec(log).nodes ensures exists p :: p in log && NodeOf(p, n) {
        if n in Exec(front).nodes {
          var p :| p in front && NodeOf(p, n);
          assert p in log;
        } else {
          assert NodeOf(last, n);
        }
      }
      forall e | e in Exec(log).edges ensures exists p :: p in log && EdgeOf(p, e) {
        if e in Exec(front).edges {
          var p :| p in front && EdgeOf(p, e);
          assert p in log;
        } else {
          assert EdgeOf(last, e);
        }
      }
    }
  }

  ghost predicate NodeOf(p: Push, n: Node)
  {
    p.PushNode? && n.id == Print(p.ref) && n.x == ColumnX(p.kind) && n.caption == p.caption
  }

  ghost predicate EdgeOf(p: Push, e: Edge)
  {
    p.PushEdge? && e.source == Print(p.source) && e.target == Print(p.target) && e.relationship == p.relationship
    && e.animated == p.animated
  }

  ghost predicate NodeLooks(account: string, d: Data, n: Node)
  {
    exists ref: NodeRef ::
      && n.id == LabelOf(ref.prefix) + ":" + ref.id && n.x == ColumnOf(ref.prefix)
      && Captioned(account, d, ref, n.caption)
  }

  lemma FromPushes(account: string, d: Data, log: seq<Push>)
    requires AllLook(account, d, log)
    ensures forall n :: n in Exec(log).nodes ==> NodeLooks(account, d, n)
    ensures forall e :: e in Exec(log).edges ==> (e.animated <==> Moves(e.relationship))
  {
    hide Exec, Captioned, LabelOf, PrefixText, ColumnX, ColumnOf, Moves;
    KeptPushes(log);
    forall n | n in Exec(log).nodes ensures NodeLooks(account, d, n) {
      var p :| p in log && NodeOf(p, n);
      assert Looks(account, d, p);
      LabelIs(p.ref.prefix);
    }
    forall e | e in Exec(log).edges ensures e.animated <==> Moves(e.relationship) {
      var p :| p in log && EdgeOf(p, e);
      assert Looks(account, d, p);
    }
  }

  /** A node of an inventory's graph carries the name of a row with its id and stands in the column of its kind; an
      edge is animated exactly when it shows a running service or traffic to one. */
  lemma GraphLooksRight(account: string, d: Data)
    requires UniqueBy(d.vpcs, IdOfVpc) && UniqueBy(d.loadBalancers, IdOfLb)
    ensures forall n :: n in GraphOf(account, d).nodes ==> NodeLooks(account, d, n)
    ensures forall e :: e in GraphOf(account, d).edges ==> (e.animated <==> Moves(e.relationship))
  {
    hide *;
    ScriptLooks(account, d);
    GraphIs(account, d);
    FromPushes(account, d, Script(BuildModel(account, d), d));
  }

  lemma GraphIs(account: string, d: Data)
    ensures GraphOf(account, d) == Exec(Script(BuildModel(account, d), d))
  {
    hide Script, BuildModel, Exec;
  }
}
