/** buildArchitectureModel: sorting an inventory into VPC buckets, with one bucket created on
    demand for resources whose VPC is absent or not listed. */
module ArchitectureModel {
  import opened Seqs
  import opened Inventory

  datatype ResourceType =
    | Ec2Instance | LoadBalancerOf(lbType: string) | LoadBalancerListener | RouteTableType | SecurityGroup
    | RdsInstance | ElastiCacheCluster | LambdaFunction | EksCluster | EcsCluster | EcsTaskDefinition | EcsService
    | GlobalType(kind: GlobalKind)

  datatype Resource = Resource(id: string, rtype: ResourceType, name: string)

  datatype SubnetClass = PublicSubnet | PrivateSubnet | UnknownSubnet
  datatype SubnetSummary = SubnetSummary(id: string, name: string, cidrBlock: string, visibility: SubnetClass,
                                         resources: seq<Resource>)

  datatype Slot = SecurityGroups | RouteTables | LoadBalancers | Databases | Containers | Serverless | Caches

  datatype Bucket = Bucket(
    id: string, name: string, cidrBlock: string, subnets: seq<SubnetSummary>,
    securityGroups: seq<Resource>, routeTables: seq<Resource>, loadBalancers: seq<Resource>,
    databases: seq<Resource>, containers: seq<Resource>, serverless: seq<Resource>, caches: seq<Resource>)
  {
    function Get(s: Slot): seq<Resource>
    {
      match s
      case SecurityGroups => securityGroups
      case RouteTables => routeTables
      case LoadBalancers => loadBalancers
      case Databases => databases
      case Containers => containers
      case Serverless => serverless
      case Caches => caches
    }

    /** bucket.<slot>.push(r) */
    function PushTo(s: Slot, r: Resource): (b: Bucket)
      ensures b.id == id && b.subnets == subnets
      ensures forall t :: b.Get(t) == if t == s then Get(t) + [r] else Get(t)
    {
      match s
      case SecurityGroups => this.(securityGroups := securityGroups + [r])
      case RouteTables => this.(routeTables := routeTables + [r])
      case LoadBalancers => this.(loadBalancers := loadBalancers + [r])
      case Databases => this.(databases := databases + [r])
      case Containers => this.(containers := containers + [r])
      case Serverless => this.(serverless := serverless + [r])
      case Caches => this.(caches := caches + [r])
    }
  }

  function EmptyBucket(id: string, name: string, cidrBlock: string): Bucket
  {
    Bucket(id, name, cidrBlock, [], [], [], [], [], [], [], [])
  }

  datatype Model = Model(cloudAccountId: string, vpcs: seq<Bucket>, globals: GlobalKind -> seq<Resource>)

  // ----- specification: every resource is placed once, in the bucket of its home -----

  datatype Item = InSlot(slot: Slot, resource: Resource) | InSubnets(subnet: SubnetSummary)
  datatype Placement = Placement(home: string, item: Item)

  function UnassignedId(account: string): string { account + "-unassigned" }

  function VpcIds(d: Data): set<string> { set v | v in d.vpcs :: v.id }

  /** A resource's home: its VPC when that VPC is listed, the unassigned bucket otherwise. */
  function Home(account: string, d: Data, vpcId: Option<string>): string
  {
    if vpcId.Some? && vpcId.value != "" && vpcId.value in VpcIds(d) then vpcId.value else UnassignedId(account)
  }

  function ClassOf(t: SubnetType): SubnetClass
  {
    match t
    case Public => PublicSubnet
    case PrivateWithNat => PrivateSubnet
    case PrivateIsolated => PrivateSubnet
    case OtherSubnet => UnknownSubnet
  }

  function HostedIn(s: Subnet): Ec2 -> seq<Resource>
  {
    (e: Ec2) => if e.awsSubnetId == s.awsSubnetId then [Resource(e.id, Ec2Instance, e.name)] else []
  }

  function Summarize(d: Data, s: Subnet): SubnetSummary
  {
    SubnetSummary(s.id, s.name, s.cidrBlock, ClassOf(s.subnetType), FlatMap(d.ec2Instances, HostedIn(s)))
  }

  function NamesVpc(id: string): LoadBalancer -> bool
  {
    (lb: LoadBalancer) => lb.id == id && lb.vpcId.Some? && lb.vpcId.value != ""
  }

  /** The VPC of a listener is that of its load balancer, when the latter names one. */
  function LbVpc(lbs: seq<LoadBalancer>, id: string): Option<string>
  {
    match FindLast(lbs, NamesVpc(id))
    case Some(lb) => lb.vpcId
    case None => None
  }

  predicate InUse(d: Data, taskDefinitionId: string)
  {
    exists s :: s in d.services && s.taskDefinitionId == taskDefinitionId
  }

  function PlaceSubnet(account: string, d: Data): Subnet -> seq<Placement>
  {
    (s: Subnet) => [Placement(Home(account, d, Some(s.vpcId)), InSubnets(Summarize(d, s)))]
  }

  /** Security groups, databases, EKS clusters, functions and caches. */
  function PlaceIn(account: string, d: Data, slot: Slot, t: ResourceType): Placed -> seq<Placement>
  {
    (p: Placed) => [Placement(Home(account, d, p.vpcId), InSlot(slot, Resource(p.id, t, p.name)))]
  }

  function PlaceRouteTable(account: string, d: Data): RouteTable -> seq<Placement>
  {
    (r: RouteTable) => [Placement(Home(account, d, Some(r.vpcId)),
                                  InSlot(RouteTables, Resource(r.id, RouteTableType, r.name)))]
  }

  function PlaceLb(account: string, d: Data): LoadBalancer -> seq<Placement>
  {
    (lb: LoadBalancer) =>
      [Placement(Home(account, d, lb.vpcId), InSlot(LoadBalancers,
                                                    Resource(lb.id, LoadBalancerOf(lb.lbType), lb.name)))]
  }

  function PlaceListener(account: string, d: Data): Listener -> seq<Placement>
  {
    (l: Listener) =>
      [Placement(Home(account, d, LbVpc(d.loadBalancers, l.loadBalancerId)),
                 InSlot(LoadBalancers, Resource(l.id, LoadBalancerListener, l.name)))]
  }

  function PlaceCluster(account: string): Cluster -> seq<Placement>
  {
    (c: Cluster) => [Placement(UnassignedId(account), InSlot(Containers, Resource(c.id, EcsCluster, c.name)))]
  }

  /** Task definitions that no service uses are skipped. */
  function PlaceTaskDef(account: string, d: Data): TaskDef -> seq<Placement>
  {
    (t: TaskDef) =>
      if InUse(d, t.id) then [Placement(UnassignedId(account),
                                        InSlot(Containers, Resource(t.id, EcsTaskDefinition, t.name)))]
      else []
  }

  function PlaceService(account: string): Service -> seq<Placement>
  {
    (s: Service) => [Placement(UnassignedId(account), InSlot(Containers, Resource(s.id, EcsService, s.name)))]
  }

  /** All placements, table by table. */
  function Placements(account: string, d: Data): seq<Placement>
  {
    FlatMap(d.subnets, PlaceSubnet(account, d))
    + FlatMap(d.securityGroups, PlaceIn(account, d, SecurityGroups, SecurityGroup))
    + FlatMap(d.routeTables, PlaceRouteTable(account, d))
    + FlatMap(d.loadBalancers, PlaceLb(account, d))
    + FlatMap(d.listeners, PlaceListener(account, d))
    + FlatMap(d.rds, PlaceIn(account, d, Databases, RdsInstance))
    + FlatMap(d.clusters, PlaceCluster(account))
    + FlatMap(d.taskDefs, PlaceTaskDef(account, d))
    + FlatMap(d.services, PlaceService(account))
    + FlatMap(d.eks, PlaceIn(account, d, Containers, EksCluster))
    + FlatMap(d.lambdas, PlaceIn(account, d, Serverless, LambdaFunction))
    + FlatMap(d.caches, PlaceIn(account, d, Caches, ElastiCacheCluster))
  }

  function Add(b: Bucket, item: Item): Bucket
  {
    match item
    case InSlot(s, r) => b.PushTo(s, r)
    case InSubnets(s) => b.(subnets := b.subnets + [s])
  }

  /** A bucket after the placements addressed to it, in order. */
  function Fill(b: Bucket, log: seq<Placement>): (r: Bucket)
    ensures r.id == b.id && r.name == b.name && r.cidrBlock == b.cidrBlock
    decreases |log|
  {
    if log == [] then b
    else
      var r := Fill(b, log[..|log| - 1]);
      if log[|log| - 1].home == b.id then Add(r, log[|log| - 1].item) else r
  }

  predicate HasUnassigned(account: string, log: seq<Placement>)
  {
    exists p :: p in log && p.home == UnassignedId(account)
  }

  function UnassignedBucket(account: string): Bucket
  {
    EmptyBucket(UnassignedId(account), "Unassigned Resources", "n/a")
  }

  /** The bucket stored under id before anything is placed in it. */
  function Base(account: string, d: Data, id: string): (b: Bucket)
  {
    match FindLast(d.vpcs, (v: Vpc) => v.id == id)
    case Some(v) => EmptyBucket(v.id, v.name, v.cidrBlock)
    case None => UnassignedBucket(account)
  }

  function IdList(v: Vpc): seq<string> { [v.id] }

  /** Keys of the map in insertion order: the VPCs, then the unassigned bucket once something needs it. */
  function Order(account: string, d: Data, log: seq<Placement>): seq<string>
  {
    FlatMap(d.vpcs, IdList) + (if HasUnassigned(account, log) then [UnassignedId(account)] else [])
  }

  function Contents(account: string, d: Data, log: seq<Placement>): map<string, Bucket>
  {
    map id | id in Order(account, d, log) :: Fill(Base(account, d, id), log)
  }

  function Filled(account: string, d: Data, log: seq<Placement>): string -> seq<Bucket>
  {
    (id: string) => [Fill(Base(account, d, id), log)]
  }

  function GlobalResources(d: Data): GlobalKind -> seq<Resource>
  {
    k => FlatMap(d.globals(k), AsGlobal(k))
  }

  function AsGlobal(k: GlobalKind): Global -> seq<Resource>
  {
    (g: Global) => [Resource(g.id, GlobalType(k), g.name)]
  }

  function BuildModel(account: string, d: Data): Model
  {
    var log := Placements(account, d);
    Model(account, FlatMap(Order(account, d, log), Filled(account, d, log)), GlobalResources(d))
  }

  /** Keys as the tables guarantee them: VPC ids are unique, and none has the form the compiler
      gives to the unassigned bucket (ids are UUIDs). */
  ghost predicate WellKeyed(account: string, d: Data)
  {
    UniqueBy(d.vpcs, IdOfVpc) && UnassignedId(account) !in VpcIds(d)
  }

  ghost predicate HomesKnown(account: string, d: Data, log: seq<Placement>)
  {
    forall p :: p in log ==> p.home in VpcIds(d) || p.home == UnassignedId(account)
  }

  lemma OrderMember(account: string, d: Data, log: seq<Placement>, id: string)
    ensures id in Order(account, d, log) <==>
            id in VpcIds(d) || (id == UnassignedId(account) && HasUnassigned(account, log))
  {
    FlatMapMember(d.vpcs, IdList, id);
  }

  lemma {:induction false} FillNothing(b: Bucket, log: seq<Placement>)
    requires forall p :: p in log ==> p.home != b.id
    ensures Fill(b, log) == b
  {
    if log != [] {
      assert log[|log| - 1] in log;
      FillNothing(b, log[..|log| - 1]);
    }
  }

  lemma BaseId(account: string, d: Data, id: string)
    requires id in VpcIds(d) || id == UnassignedId(account)
    ensures Base(account, d, id).id == id
  {
  }

  lemma UnassignedStep(account: string, log: seq<Placement>, p: Placement)
    ensures HasUnassigned(account, log + [p]) <==> HasUnassigned(account, log) || p.home == UnassignedId(account)
  {
    if HasUnassigned(account, log) {
      var q :| q in log && q.home == UnassignedId(account);
      assert q in log + [p];
    }
    assert p in log + [p];
  }

  lemma OrderStep(account: string, d: Data, log: seq<Placement>, p: Placement)
    requires WellKeyed(account, d) && HomesKnown(account, d, [p])
    ensures p.home in Order(account, d, log) ==> Order(account, d, log + [p]) == Order(account, d, log)
    ensures p.home !in Order(account, d, log) ==>
              p.home == UnassignedId(account) && Order(account, d, log + [p]) == Order(account, d, log) + [p.home]
  {
    hide FlatMap, HasUnassigned;
    assert p in [p];
    OrderMember(account, d, log, p.home);
    UnassignedStep(account, log, p);
    var ids, u := FlatMap(d.vpcs, IdList), UnassignedId(account);
    assert ids + [] + [u] == ids + [u];
    assert p.home in VpcIds(d) || p.home == u;
  }

  lemma FillStep(account: string, d: Data, log: seq<Placement>, p: Placement, id: string)
    requires id in Order(account, d, log + [p])
    ensures Fill(Base(account, d, id), log + [p]) ==
            if p.home == id then Add(Fill(Base(account, d, id), log), p.item) else Fill(Base(account, d, id), log)
  {
    hide Add;
    assert (log + [p])[..|log|] == log;
    OrderMember(account, d, log + [p], id);
    BaseId(account, d, id);
  }

  /** One placement changes the map the way getVpcOrUnassigned and push do. */
  lemma PlaceStep(account: string, d: Data, log: seq<Placement>, p: Placement)
    requires WellKeyed(account, d) && HomesKnown(account, d, log) && HomesKnown(account, d, [p])
    ensures HomesKnown(account, d, log + [p])
    ensures p.home in Order(account, d, log) ==> Order(account, d, log + [p]) == Order(account, d, log)
    ensures p.home !in Order(account, d, log) ==>
              p.home == UnassignedId(account) && Order(account, d, log + [p]) == Order(account, d, log) + [p.home]
    ensures var m := Contents(account, d, log);
            var m' := if p.home in m then m else m[p.home := UnassignedBucket(account)];
            Contents(account, d, log + [p]) == m'[p.home := Add(m'[p.home], p.item)]
  {
    hide Fill, Base, Add, Order, HasUnassigned;
    OrderStep(account, d, log, p);
    if p.home !in Order(account, d, log) {
      OrderMember(account, d, log, p.home);
      FreshBucket(account, d, log);
    }
    forall id | id in Order(account, d, log + [p])
      ensures Fill(Base(account, d, id), log + [p]) ==
              if p.home == id then Add(Fill(Base(account, d, id), log), p.item) else Fill(Base(account, d, id), log)
    {
      FillStep(account, d, log, p, id);
    }
    assert p in [p];
  }

  lemma FreshBucket(account: string, d: Data, log: seq<Placement>)
    requires WellKeyed(account, d) && UnassignedId(account) !in Order(account, d, log)
    ensures Fill(Base(account, d, UnassignedId(account)), log) == UnassignedBucket(account)
  {
    OrderMember(account, d, log, UnassignedId(account));
    FillNothing(UnassignedBucket(account), log);
  }

  // ----- implementation -----

  /** The mutable map of buckets in buildArchitectureModel. `log` records the placements made so
      far; Valid ties the map and its insertion order to it. */
  class VpcMap {
    const account: string
    ghost const data: Data
    var order: seq<string>
    var buckets: map<string, Bucket>
    ghost var log: seq<Placement>

    ghost predicate Valid()
      reads this
    {
      && WellKeyed(account, data) && HomesKnown(account, data, log)
      && order == Order(account, data, log)
      && buckets == Contents(account, data, log)
    }

    constructor (account: string, d: Data)
      requires WellKeyed(account, d)
      ensures Valid() && log == [] && this.account == account && data == d
    {
      this.account := account;
      data := d;
      order := [];
      buckets := map[];
      log := [];
      new;
      for i := 0 to |d.vpcs|
        invariant order == FlatMap(d.vpcs[..i], IdList)
        invariant forall id :: id in buckets <==> id in order
        invariant forall id :: id in buckets ==> buckets[id] == Base(account, d, id)
        invariant log == [] && this.account == account && data == d
      {
        var v := d.vpcs[i];
        FlatMapStep(d.vpcs, i, IdList);
        BaseOfRow(account, d, i);
        order := order + [v.id];
        buckets := buckets[v.id := EmptyBucket(v.id, v.name, v.cidrBlock)];
      }
      assert d.vpcs[..|d.vpcs|] == d.vpcs;
    }

    /** getVpcOrUnassigned(vpcId) followed by a push into the bucket it returns. */
    method Place(vpcId: Option<string>, item: Item)
      requires Valid()
      modifies this
      ensures Valid() && log == old(log) + [Placement(Home(account, data, vpcId), item)]
    {
      var home := UnassignedId(account);
      OrderMember(account, data, log, home);
      if vpcId.Some? && vpcId.value != "" {
        OrderMember(account, data, log, vpcId.value);
        if vpcId.value in buckets {
          home := vpcId.value;
        }
      }
      ghost var p := Placement(home, item);
      PlaceStep(account, data, log, p);
      if home !in buckets {
        buckets := buckets[home := UnassignedBucket(account)];
        order := order + [home];
      }
      buckets := buckets[home := Add(buckets[home], item)];
      log := log + [p];
    }
  }

  lemma BaseOfRow(account: string, d: Data, i: nat)
    requires WellKeyed(account, d) && i < |d.vpcs|
    ensures Base(account, d, d.vpcs[i].id) == EmptyBucket(d.vpcs[i].id, d.vpcs[i].name, d.vpcs[i].cidrBlock)
  {
    var r := FindLast(d.vpcs, (v: Vpc) => v.id == d.vpcs[i].id);
    assert d.vpcs[i] in d.vpcs;
    var j :| 0 <= j < |d.vpcs| && d.vpcs[j] == r.value;
    assert IdOfVpc(d.vpcs[j]) == IdOfVpc(d.vpcs[i]);
  }

  method PlaceSubnets(m: VpcMap, d: Data)
    requires m.Valid() && m.data == d
    modifies m
    ensures m.Valid() && m.log == old(m.log) + FlatMap(d.subnets, PlaceSubnet(m.account, d))
  {
    for i := 0 to |d.subnets|
      invariant m.Valid() && m.log == old(m.log) + FlatMap(d.subnets[..i], PlaceSubnet(m.account, d))
    {
      FlatMapStep(d.subnets, i, PlaceSubnet(m.account, d));
      m.Place(Some(d.subnets[i].vpcId), InSubnets(Summarize(d, d.subnets[i])));
    }
    assert d.subnets[..|d.subnets|] == d.subnets;
  }

  method PlaceAll(m: VpcMap, d: Data, rows: seq<Placed>, slot: Slot, t: ResourceType)
    requires m.Valid() && m.data == d
    modifies m
    ensures m.Valid() && m.log == old(m.log) + FlatMap(rows, PlaceIn(m.account, d, slot, t))
  {
    for i := 0 to |rows|
      invariant m.Valid() && m.log == old(m.log) + FlatMap(rows[..i], PlaceIn(m.account, d, slot, t))
    {
      FlatMapStep(rows, i, PlaceIn(m.account, d, slot, t));
      m.Place(rows[i].vpcId, InSlot(slot, Resource(rows[i].id, t, rows[i].name)));
    }
    assert rows[..|rows|] == rows;
  }

  method PlaceRouteTables(m: VpcMap, d: Data)
    requires m.Valid() && m.data == d
    modifies m
    ensures m.Valid() && m.log == old(m.log) + FlatMap(d.routeTables, PlaceRouteTable(m.account, d))
  {
    for i := 0 to |d.routeTables|
      invariant m.Valid() && m.log == old(m.log) + FlatMap(d.routeTables[..i], PlaceRouteTable(m.account, d))
    {
      var r := d.routeTables[i];
      FlatMapStep(d.routeTables, i, PlaceRouteTable(m.account, d));
      m.Place(Some(r.vpcId), InSlot(RouteTables, Resource(r.id, RouteTableType, r.name)));
    }
    assert d.routeTables[..|d.routeTables|] == d.routeTables;
  }

  ghost predicate LbMapFor(lbs: seq<LoadBalancer>, vpcOf: map<string, string>)
  {
    forall id :: LbVpc(lbs, id) == if id in vpcOf then Some(vpcOf[id]) else None
  }

  lemma LbMapStep(lbs: seq<LoadBalancer>, i: nat, vpcOf: map<string, string>)
    requires i < |lbs| && LbMapFor(lbs[..i], vpcOf)
    ensures LbMapFor(lbs[..i + 1], if lbs[i].vpcId.Some?
                     && lbs[i].vpcId.value != "" then vpcOf[lbs[i].id := lbs[i].vpcId.value] else vpcOf)
  {
    assert lbs[..i + 1][..i] == lbs[..i];
  }

  lemma PlaceLbOf(account: string, d: Data, lb: LoadBalancer)
    ensures PlaceLb(account, d)(lb) ==
            [Placement(Home(account, d, lb.vpcId), InSlot(LoadBalancers,
                                                          Resource(lb.id, LoadBalancerOf(lb.lbType), lb.name)))]
  {
  }

  method PlaceLoadBalancers(m: VpcMap, d: Data) returns (vpcOf: map<string, string>)
    requires m.Valid() && m.data == d
    modifies m
    ensures m.Valid() && m.log == old(m.log) + FlatMap(d.loadBalancers, PlaceLb(m.account, d))
    ensures LbMapFor(d.loadBalancers, vpcOf)
  {
    vpcOf := map[];
    assert LbMapFor(d.loadBalancers[..0], vpcOf);
    hide LbMapFor, PlaceLb;
    for i := 0 to |d.loadBalancers|
      invariant m.Valid() && m.log == old(m.log) + FlatMap(d.loadBalancers[..i], PlaceLb(m.account, d))
      invariant LbMapFor(d.loadBalancers[..i], vpcOf)
    {
      var lb := d.loadBalancers[i];
      FlatMapStep(d.loadBalancers, i, PlaceLb(m.account, d));
      LbMapStep(d.loadBalancers, i, vpcOf);
      if lb.vpcId.Some? && lb.vpcId.value != "" {
        vpcOf := vpcOf[lb.id := lb.vpcId.value];
      }
      PlaceLbOf(m.account, d, lb);
      m.Place(lb.vpcId, InSlot(LoadBalancers, Resource(lb.id, LoadBalancerOf(lb.lbType), lb.name)));
    }
    assert d.loadBalancers[..|d.loadBalancers|] == d.loadBalancers;
  }

  lemma PlaceListenerOf(account: string, d: Data, l: Listener, vpcOf: map<string, string>)
    requires LbMapFor(d.loadBalancers, vpcOf)
    ensures var vpcId := if l.loadBalancerId in vpcOf then Some(vpcOf[l.loadBalancerId]) else None;
            PlaceListener(account, d)(l) ==
            [Placement(Home(account, d, vpcId), InSlot(LoadBalancers, Resource(l.id, LoadBalancerListener, l.name)))]
  {
  }

  method PlaceListeners(m: VpcMap, d: Data, vpcOf: map<string, string>)
    requires m.Valid() && m.data == d && LbMapFor(d.loadBalancers, vpcOf)
    modifies m
    ensures m.Valid() && m.log == old(m.log) + FlatMap(d.listeners, PlaceListener(m.account, d))
  {
    for i := 0 to |d.listeners|
      invariant m.Valid() && m.log == old(m.log) + FlatMap(d.listeners[..i], PlaceListener(m.account, d))
    {
      hide LbMapFor, PlaceListener, Home, LbVpc;
      var l := d.listeners[i];
      FlatMapStep(d.listeners, i, PlaceListener(m.account, d));
      PlaceListenerOf(m.account, d, l, vpcOf);
      var vpcId := if l.loadBalancerId in vpcOf then Some(vpcOf[l.loadBalancerId]) else None;
      m.Place(vpcId, InSlot(LoadBalancers, Resource(l.id, LoadBalancerListener, l.name)));
    }
    assert d.listeners[..|d.listeners|] == d.listeners;
  }

  method PlaceClusters(m: VpcMap, d: Data)
    requires m.Valid() && m.data == d
    modifies m
    ensures m.Valid() && m.log == old(m.log) + FlatMap(d.clusters, PlaceCluster(m.account))
  {
    for i := 0 to |d.clusters|
      invariant m.Valid() && m.log == old(m.log) + FlatMap(d.clusters[..i], PlaceCluster(m.account))
    {
      FlatMapStep(d.clusters, i, PlaceCluster(m.account));
      m.Place(None, InSlot(Containers, Resource(d.clusters[i].id, EcsCluster, d.clusters[i].name)));
    }
    assert d.clusters[..|d.clusters|] == d.clusters;
  }

  method PlaceTaskDefs(m: VpcMap, d: Data)
    requires m.Valid() && m.data == d
    modifies m
    ensures m.Valid() && m.log == old(m.log) + FlatMap(d.taskDefs, PlaceTaskDef(m.account, d))
  {
    var inUse := set s | s in d.services :: s.taskDefinitionId;
    for i := 0 to |d.taskDefs|
      invariant m.Valid() && m.log == old(m.log) + FlatMap(d.taskDefs[..i], PlaceTaskDef(m.account, d))
    {
      var t := d.taskDefs[i];
      FlatMapStep(d.taskDefs, i, PlaceTaskDef(m.account, d));
      if t.id in inUse {
        m.Place(None, InSlot(Containers, Resource(t.id, EcsTaskDefinition, t.name)));
      }
    }
    assert d.taskDefs[..|d.taskDefs|] == d.taskDefs;
  }

  method PlaceServices(m: VpcMap, d: Data)
    requires m.Valid() && m.data == d
    modifies m
    ensures m.Valid() && m.log == old(m.log) + FlatMap(d.services, PlaceService(m.account))
  {
    for i := 0 to |d.services|
      invariant m.Valid() && m.log == old(m.log) + FlatMap(d.services[..i], PlaceService(m.account))
    {
      FlatMapStep(d.services, i, PlaceService(m.account));
      m.Place(None, InSlot(Containers, Resource(d.services[i].id, EcsService, d.services[i].name)));
    }
    assert d.services[..|d.services|] == d.services;
  }

  /** Array.from(vpcMap.values()) */
  method Values(m: VpcMap) returns (vpcs: seq<Bucket>)
    requires m.Valid()
    ensures vpcs == FlatMap(Order(m.account, m.data, m.log), Filled(m.account, m.data, m.log))
  {
    vpcs := [];
    for i := 0 to |m.order|
      invariant vpcs == FlatMap(m.order[..i], Filled(m.account, m.data, m.log))
    {
      FlatMapStep(m.order, i, Filled(m.account, m.data, m.log));
      vpcs := vpcs + [m.buckets[m.order[i]]];
    }
    assert m.order[..|m.order|] == m.order;
  }

  method BuildArchitectureModel(account: string, d: Data) returns (model: Model)
    requires WellKeyed(account, d)
    ensures model == BuildModel(account, d)
  {
    var m := new VpcMap(account, d);
    PlaceSubnets(m, d);
    assert m.log == FlatMap(d.subnets, PlaceSubnet(account, d));
    PlaceAll(m, d, d.securityGroups, SecurityGroups, SecurityGroup);
    PlaceRouteTables(m, d);
    var vpcOf := PlaceLoadBalancers(m, d);
    PlaceListeners(m, d, vpcOf);
    PlaceAll(m, d, d.rds, Databases, RdsInstance);
    PlaceClusters(m, d);
    PlaceTaskDefs(m, d);
    PlaceServices(m, d);
    PlaceAll(m, d, d.eks, Containers, EksCluster);
    PlaceAll(m, d, d.lambdas, Serverless, LambdaFunction);
    PlaceAll(m, d, d.caches, Caches, ElastiCacheCluster);
    var vpcs := Values(m);
    model := Model(account, vpcs, GlobalResources(d));
  }
}
