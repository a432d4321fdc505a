/** The rows an assessment reads, how collectAllData selects them for one cloud account, and
    the totals buildSummary reports. A row keeps the columns the graph and the diagram are
    computed from; `name` is the text the row is shown under. */
module Inventory {
  import opened Seqs

  /** Resources that belong to the account as a whole, in the order of the graph's collections. */
  datatype GlobalKind =
    | S3Buckets | CloudFront | Route53 | IamRoles | CloudTrail | CloudWatch | GuardDuty | KmsKeys
    | Secrets | EcrRepositories | DynamoDb | SqsQueues | SnsTopics | WafAcls | ApiGateways

  const GLOBAL_ORDER: seq<GlobalKind> :=
    [S3Buckets, CloudFront, Route53, IamRoles, CloudTrail, CloudWatch, GuardDuty, KmsKeys,
     Secrets, EcrRepositories, DynamoDb, SqsQueues, SnsTopics, WafAcls, ApiGateways]

  datatype Vpc = Vpc(id: string, name: string, cidrBlock: string)
  datatype SubnetType = Public | PrivateWithNat | PrivateIsolated | OtherSubnet
  datatype Subnet = Subnet(id: string, vpcId: string, awsSubnetId: string, name: string,
                           cidrBlock: string, subnetType: SubnetType)
  datatype Ec2 = Ec2(id: string, vpcId: string, awsSubnetId: string, name: string)
  datatype Association = Association(subnetId: string, isMain: bool)
  datatype RouteTable = RouteTable(id: string, vpcId: string, name: string, associations: seq<Association>)
  /** Any resource with an optional VPC: security group, RDS, EKS, Lambda, ElastiCache. */
  datatype Placed = Placed(id: string, vpcId: Option<string>, name: string)
  datatype LoadBalancer = LoadBalancer(id: string, vpcId: Option<string>, arn: string, name: string,
                                       lbType: string, subnetIds: seq<string>)
  datatype Listener = Listener(id: string, loadBalancerId: string, name: string)
  datatype Cluster = Cluster(id: string, name: string)
  datatype TaskDef = TaskDef(id: string, name: string, executionRoleId: Option<string>, taskRoleId: Option<string>)
  datatype LbRef = LbRef(arn: Option<string>, name: Option<string>)
  datatype Service = Service(id: string, name: string, clusterId: string, taskDefinitionId: string,
                             subnets: seq<string>, loadBalancers: seq<LbRef>, serviceRoleId: Option<string>)
  datatype Global = Global(id: string, name: string)

  datatype Data = Data(
    vpcs: seq<Vpc>, subnets: seq<Subnet>, routeTables: seq<RouteTable>, ec2Instances: seq<Ec2>,
    clusters: seq<Cluster>, taskDefs: seq<TaskDef>, services: seq<Service>, eks: seq<Placed>,
    loadBalancers: seq<LoadBalancer>, listeners: seq<Listener>, securityGroups: seq<Placed>,
    rds: seq<Placed>, lambdas: seq<Placed>, caches: seq<Placed>, globals: GlobalKind -> seq<Global>)

  // ----- collectAllData -----

  /** A row stored with the cloud account that owns it. */
  datatype Owned<+R> = Owned(account: string, row: R)

  datatype Db = Db(
    vpcs: seq<Owned<Vpc>>, subnets: seq<Subnet>, routeTables: seq<RouteTable>, ec2Instances: seq<Ec2>,
    clusters: seq<Owned<Cluster>>, taskDefs: seq<Owned<TaskDef>>, services: seq<Owned<Service>>,
    eks: seq<Owned<Placed>>,
    loadBalancers: seq<Owned<LoadBalancer>>, listeners: seq<Listener>, securityGroups: seq<Owned<Placed>>,
    rds: seq<Owned<Placed>>, lambdas: seq<Owned<Placed>>, caches: seq<Owned<Placed>>,
    globals: GlobalKind -> seq<Owned<Global>>)

  /** find({ where: { cloudAccountId } }) */
  function OfAccount<R>(account: string, table: seq<Owned<R>>): seq<R>
  {
    FlatMap(table, (o: Owned<R>) => if o.account == account then [o.row] else [])
  }

  /** find({ where: { fk: In(ids) } }), skipped when ids is empty. */
  function WithKeyIn<R>(ids: seq<string>, table: seq<R>, key: R -> string): seq<R>
  {
    if |ids| > 0 then FlatMap(table, (r: R) => if key(r) in ids then [r] else []) else []
  }

  function CollectAllData(db: Db, account: string): Data
  {
    var vpcs := OfAccount(account, db.vpcs);
    var vpcUuids := FlatMap(vpcs, (v: Vpc) => [v.id]);
    var loadBalancers := OfAccount(account, db.loadBalancers);
    var lbUuids := FlatMap(loadBalancers, (lb: LoadBalancer) => [lb.id]);
    Data(
      vpcs,
      WithKeyIn(vpcUuids, db.subnets, (s: Subnet) => s.vpcId),
      WithKeyIn(vpcUuids, db.routeTables, (r: RouteTable) => r.vpcId),
      WithKeyIn(vpcUuids, db.ec2Instances, (e: Ec2) => e.vpcId),
      OfAccount(account, db.clusters), OfAccount(account, db.taskDefs), OfAccount(account, db.services),
      OfAccount(account, db.eks), loadBalancers,
      WithKeyIn(lbUuids, db.listeners, (l: Listener) => l.loadBalancerId),
      OfAccount(account, db.securityGroups), OfAccount(account, db.rds), OfAccount(account, db.lambdas),
      OfAccount(account, db.caches), k => OfAccount(account, db.globals(k)))
  }

  // ----- keys -----

  function IdOfVpc(v: Vpc): string { v.id }
  function IdOfSubnet(s: Subnet): string { s.id }
  function IdOfEc2(e: Ec2): string { e.id }
  function IdOfRouteTable(r: RouteTable): string { r.id }
  function IdOfPlaced(p: Placed): string { p.id }
  function IdOfLb(lb: LoadBalancer): string { lb.id }
  function IdOfListener(l: Listener): string { l.id }
  function IdOfCluster(c: Cluster): string { c.id }
  function IdOfTaskDef(t: TaskDef): string { t.id }
  function IdOfService(s: Service): string { s.id }
  function IdOfGlobal(g: Global): string { g.id }

  /** Ids are primary keys: unique inside each table. */
  ghost predicate UniqueIds(d: Data)
  {
    && UniqueBy(d.vpcs, IdOfVpc) && UniqueBy(d.subnets, IdOfSubnet) && UniqueBy(d.routeTables, IdOfRouteTable)
    && UniqueBy(d.ec2Instances, IdOfEc2) && UniqueBy(d.clusters, IdOfCluster) && UniqueBy(d.taskDefs, IdOfTaskDef)
    && UniqueBy(d.services, IdOfService) && UniqueBy(d.eks, IdOfPlaced) && UniqueBy(d.loadBalancers, IdOfLb)
    && UniqueBy(d.listeners, IdOfListener) && UniqueBy(d.securityGroups, IdOfPlaced) && UniqueBy(d.rds, IdOfPlaced)
    && UniqueBy(d.lambdas, IdOfPlaced) && UniqueBy(d.caches, IdOfPlaced)
    && forall k :: UniqueBy(d.globals(k), IdOfGlobal)
  }

  ghost predicate UniqueRows<R>(table: seq<Owned<R>>, key: R -> string)
  {
    UniqueBy(table, (o: Owned<R>) => key(o.row))
  }

  ghost predicate UniqueKeys(db: Db)
  {
    && UniqueRows(db.vpcs, IdOfVpc) && UniqueBy(db.subnets, IdOfSubnet) && UniqueBy(db.routeTables, IdOfRouteTable)
    && UniqueBy(db.ec2Instances, IdOfEc2) && UniqueRows(db.clusters, IdOfCluster)
       && UniqueRows(db.taskDefs, IdOfTaskDef)
    && UniqueRows(db.services, IdOfService) && UniqueRows(db.eks, IdOfPlaced) && UniqueRows(db.loadBalancers, IdOfLb)
    && UniqueBy(db.listeners, IdOfListener) && UniqueRows(db.securityGroups, IdOfPlaced)
       && UniqueRows(db.rds, IdOfPlaced)
    && UniqueRows(db.lambdas, IdOfPlaced) && UniqueRows(db.caches, IdOfPlaced)
    && forall k :: UniqueRows(db.globals(k), IdOfGlobal)
  }

  /** Every listener belongs to a load balancer of the same inventory. */
  ghost predicate ListenersListed(d: Data)
  {
    forall l :: l in d.listeners ==> exists lb :: lb in d.loadBalancers && lb.id == l.loadBalancerId
  }

  lemma {:induction false} SelectKeepsUnique<R, S>(table: seq<R>, f: R -> seq<S>, keyR: R -> string, keyS: S -> string)
    requires UniqueBy(table, keyR)
    requires forall r :: r in table ==> |f(r)| <= 1 && forall y :: y in f(r) ==> keyS(y) == keyR(r)
    ensures UniqueBy(FlatMap(table, f), keyS)
    ensures forall y :: y in FlatMap(table, f) ==> exists r :: r in table && keyS(y) == keyR(r)
  {
    if table != [] {
      var front, last := table[..|table| - 1], table[|table| - 1];
      assert table == front + [last];
      SelectKeepsUnique(front, f, keyR, keyS);
    }
  }

  lemma OfAccountUnique<R>(account: string, table: seq<Owned<R>>, key: R -> string)
    requires UniqueRows(table, key)
    ensures UniqueBy(OfAccount(account, table), key)
  {
    SelectKeepsUnique(table, (o: Owned<R>) => if o.account == account then [o.row] else [],
                      (o: Owned<R>) => key(o.row), key);
  }

  lemma WithKeyInUnique<R>(ids: seq<string>, table: seq<R>, fk: R -> string, key: R -> string)
    requires UniqueBy(table, key)
    ensures UniqueBy(WithKeyIn(ids, table, fk), key)
  {
    SelectKeepsUnique(table, (r: R) => if fk(r) in ids then [r] else [], key, key);
  }

  lemma WithKeyInMember<R>(ids: seq<string>, table: seq<R>, key: R -> string, r: R)
    ensures r in WithKeyIn(ids, table, key) <==> r in table && key(r) in ids
  {
    FlatMapMember(table, (r: R) => if key(r) in ids then [r] else [], r);
  }

  lemma OfAccountMember<R>(account: string, table: seq<Owned<R>>, r: R)
    ensures r in OfAccount(account, table) <==> Owned(account, r) in table
  {
    FlatMapMember(table, (o: Owned<R>) => if o.account == account then [o.row] else [], r);
  }

  /** Of every table that names its owner exactly the account's own rows are collected. */
  ghost predicate OwnRows(db: Db, account: string, d: Data)
  {
    && (forall x :: x in d.vpcs <==> Owned(account, x) in db.vpcs)
    && (forall x :: x in d.clusters <==> Owned(account, x) in db.clusters)
    && (forall x :: x in d.taskDefs <==> Owned(account, x) in db.taskDefs)
    && (forall x :: x in d.services <==> Owned(account, x) in db.services)
    && (forall x :: x in d.eks <==> Owned(account, x) in db.eks)
    && (forall x :: x in d.loadBalancers <==> Owned(account, x) in db.loadBalancers)
    && (forall x :: x in d.securityGroups <==> Owned(account, x) in db.securityGroups)
    && (forall x :: x in d.rds <==> Owned(account, x) in db.rds)
    && (forall x :: x in d.lambdas <==> Owned(account, x) in db.lambdas)
    && (forall x :: x in d.caches <==> Owned(account, x) in db.caches)
    && (forall k, x :: x in d.globals(k) <==> Owned(account, x) in db.globals(k))
  }

  lemma CollectOwn(db: Db, account: string)
    ensures OwnRows(db, account, CollectAllData(db, account))
  {
    var d := CollectAllData(db, account);
    forall x { OfAccountMember(account, db.vpcs, x); }
    forall x { OfAccountMember(account, db.clusters, x); }
    forall x { OfAccountMember(account, db.taskDefs, x); }
    forall x { OfAccountMember(account, db.services, x); }
    forall x { OfAccountMember(account, db.eks, x); }
    forall x { OfAccountMember(account, db.loadBalancers, x); }
    forall x { OfAccountMember(account, db.securityGroups, x); }
    forall x { OfAccountMember(account, db.rds, x); }
    forall x { OfAccountMember(account, db.lambdas, x); }
    forall x { OfAccountMember(account, db.caches, x); }
    forall k, x ensures x in d.globals(k) <==> Owned(account, x) in db.globals(k) {
      OfAccountMember(account, db.globals(k), x);
    }
  }

  /** What one account's inventory guarantees: its own rows and no others, unique ids, and every subnet, route table
      and instance in a listed VPC, every listener on a listed load balancer. */
  lemma CollectGuarantees(db: Db, account: string)
    requires UniqueKeys(db)
    ensures var d := CollectAllData(db, account);
            && OwnRows(db, account, d) && UniqueIds(d) && ListenersListed(d)
            && (forall s :: s in d.subnets <==> s in db.subnets && exists v :: v in d.vpcs && v.id == s.vpcId)
            && (forall r :: r in d.routeTables <==> r in db.routeTables && exists v :: v in d.vpcs && v.id == r.vpcId)
            && (forall e :: e in d.ec2Instances <==> e in db.ec2Instances && exists v :: v in d.vpcs && v.id == e.vpcId)
            && (forall l :: l in d.listeners <==>
                  l in db.listeners && exists lb :: lb in d.loadBalancers && lb.id == l.loadBalancerId)
  {
    var d := CollectAllData(db, account);
    CollectUnique(db, account);
    CollectOwn(db, account);
    hide OwnRows;
    var vpcUuids := FlatMap(d.vpcs, (v: Vpc) => [v.id]);
    var lbUuids := FlatMap(d.loadBalancers, (lb: LoadBalancer) => [lb.id]);
    forall id ensures id in vpcUuids <==> exists v :: v in d.vpcs && v.id == id {
      FlatMapMember(d.vpcs, (v: Vpc) => [v.id], id);
    }
    forall id ensures id in lbUuids <==> exists lb :: lb in d.loadBalancers && lb.id == id {
      FlatMapMember(d.loadBalancers, (lb: LoadBalancer) => [lb.id], id);
    }
    forall s { WithKeyInMember(vpcUuids, db.subnets, (s: Subnet) => s.vpcId, s); }
    forall r { WithKeyInMember(vpcUuids, db.routeTables, (r: RouteTable) => r.vpcId, r); }
    forall e { WithKeyInMember(vpcUuids, db.ec2Instances, (e: Ec2) => e.vpcId, e); }
    forall l ensures l in d.listeners <==> l in db.listeners && l.loadBalancerId in lbUuids {
      WithKeyInMember(lbUuids, db.listeners, (l: Listener) => l.loadBalancerId, l);
    }
    assert ListenersListed(d);
  }

  lemma CollectUnique(db: Db, account: string)
    requires UniqueKeys(db)
    ensures UniqueIds(CollectAllData(db, account))
  {
    var d := CollectAllData(db, account);
    OfAccountUnique(account, db.vpcs, IdOfVpc);
    OfAccountUnique(account, db.clusters, IdOfCluster);
    OfAccountUnique(account, db.taskDefs, IdOfTaskDef);
    OfAccountUnique(account, db.services, IdOfService);
    OfAccountUnique(account, db.eks, IdOfPlaced);
    OfAccountUnique(account, db.loadBalancers, IdOfLb);
    OfAccountUnique(account, db.securityGroups, IdOfPlaced);
    OfAccountUnique(account, db.rds, IdOfPlaced);
    OfAccountUnique(account, db.lambdas, IdOfPlaced);
    OfAccountUnique(account, db.caches, IdOfPlaced);
    forall k ensures UniqueBy(d.globals(k), IdOfGlobal) { OfAccountUnique(account, db.globals(k), IdOfGlobal); }
    var vpcUuids := FlatMap(d.vpcs, (v: Vpc) => [v.id]);
    var lbUuids := FlatMap(d.loadBalancers, (lb: LoadBalancer) => [lb.id]);
    WithKeyInUnique(vpcUuids, db.subnets, (s: Subnet) => s.vpcId, IdOfSubnet);
    WithKeyInUnique(vpcUuids, db.routeTables, (r: RouteTable) => r.vpcId, IdOfRouteTable);
    WithKeyInUnique(vpcUuids, db.ec2Instances, (e: Ec2) => e.vpcId, IdOfEc2);
    WithKeyInUnique(lbUuids, db.listeners, (l: Listener) => l.loadBalancerId, IdOfListener);
  }

  // ----- buildSummary -----

  function SumGlobals(d: Data, kinds: seq<GlobalKind>): nat
  {
    if kinds == [] then 0 else |d.globals(kinds[0])| + SumGlobals(d, kinds[1..])
  }

  /** buildSummary(data).totalResources */
  function TotalResources(d: Data): nat
  {
    |d.vpcs| + |d.subnets| + |d.routeTables| + |d.ec2Instances| + |d.clusters| + |d.taskDefs| + |d.services|
    + |d.eks| + |d.loadBalancers| + |d.listeners| + |d.securityGroups| + |d.rds| + |d.lambdas| + |d.caches|
    + SumGlobals(d, GLOBAL_ORDER)
  }
}
