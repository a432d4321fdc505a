/** Whose rows the assessment of an account shows: its own, directly or through its VPCs and load balancers. */
module AccountNodes {
  import opened Seqs
  import opened Inventory
  import opened ArchitectureModel
  import opened FlowGraph
  import opened GraphCompiler
  import opened GraphTheorems

  ghost predicate OwnVpc(db: Db, account: string, id: string)
  {
    exists v :: Owned(account, v) in db.vpcs && v.id == id
  }

  /** Some row the account owns makes a node with this prefix and id. */
  ghost predicate Belongs(db: Db, account: string, r: NodeRef)
  {
    match r.prefix
    case Root => r.id == account
    case VpcP => OwnVpc(db, account, r.id)
    case SubnetP => exists x :: x in db.subnets && x.id == r.id && OwnVpc(db, account, x.vpcId)
    case Ec2P =>
      exists x, s :: && x in db.ec2Instances && x.id == r.id && OwnVpc(db, account, x.vpcId)
                     && s in db.subnets && s.awsSubnetId == x.awsSubnetId && OwnVpc(db, account, s.vpcId)
    case ListenerP =>
      exists x, lb :: x in db.listeners && x.id == r.id
                      && Owned(account, lb) in db.loadBalancers && lb.id == x.loadBalancerId
    case LbP => exists x :: Owned(account, x) in db.loadBalancers && x.id == r.id
    case RouteTableP => exists x :: x in db.routeTables && x.id == r.id && OwnVpc(db, account, x.vpcId)
    case SecurityGroupP => exists x :: Owned(account, x) in db.securityGroups && x.id == r.id
    case RdsP => exists x :: Owned(account, x) in db.rds && x.id == r.id
    case CacheP => exists x :: Owned(account, x) in db.caches && x.id == r.id
    case LambdaP => exists x :: Owned(account, x) in db.lambdas && x.id == r.id
    case EksP => exists x :: Owned(account, x) in db.eks && x.id == r.id
    case ClusterP => exists x :: Owned(account, x) in db.clusters && x.id == r.id
    case ServiceP => exists x :: Owned(account, x) in db.services && x.id == r.id
    case TaskDefP =>
      exists x, s :: && Owned(account, x) in db.taskDefs && x.id == r.id
                     && Owned(account, s) in db.services && s.taskDefinitionId == x.id
    case GlobalP(k) => exists x :: Owned(account, x) in db.globals(k) && x.id == r.id
  }

  /** The bucket for what has no listed VPC. */
  ghost predicate IsUnassigned(account: string, d: Data, r: NodeRef)
  {
    r == VpcRef(account + "-unassigned") && HasUnassigned(account, Placements(account, d))
  }

  lemma OwnVpcListed(db: Db, account: string, d: Data, id: string)
    requires OwnRows(db, account, d)
    ensures OwnVpc(db, account, id) <==> id in VpcIds(d)
    ensures OwnVpc(db, account, id) <==> exists v :: v in d.vpcs && v.id == id
  {
    if v :| Owned(account, v) in db.vpcs && v.id == id { assert v in d.vpcs; }
    if v :| v in d.vpcs && v.id == id { assert Owned(account, v) in db.vpcs; }
  }

  /** The rows the inventory holds below an account's VPCs and load balancers. */
  ghost predicate BelowOwn(db: Db, account: string, d: Data)
  {
    && (forall x :: x in d.subnets <==> x in db.subnets && OwnVpc(db, account, x.vpcId))
    && (forall x :: x in d.routeTables <==> x in db.routeTables && OwnVpc(db, account, x.vpcId))
    && (forall x :: x in d.ec2Instances <==> x in db.ec2Instances && OwnVpc(db, account, x.vpcId))
    && (forall x :: x in d.listeners <==>
          x in db.listeners && exists lb :: Owned(account, lb) in db.loadBalancers && lb.id == x.loadBalancerId)
  }

  lemma CollectBelow(db: Db, account: string)
    requires UniqueKeys(db)
    ensures BelowOwn(db, account, CollectAllData(db, account))
  {
    var d := CollectAllData(db, account);
    CollectGuarantees(db, account);
    hide CollectAllData, UniqueIds, ListenersListed, UniqueKeys;
    forall id ensures OwnVpc(db, account, id) <==> exists v :: v in d.vpcs && v.id == id {
      OwnVpcListed(db, account, d, id);
    }
  }

  /** Nodes of VPCs and of what belongs to an account through them or through its load balancers. */
  predicate IsBelow(p: Prefix) { p.VpcP? || p.SubnetP? || p.Ec2P? || p.ListenerP? || p.RouteTableP? }

  lemma BelowBelongs(db: Db, account: string, d: Data, r: NodeRef)
    requires OwnRows(db, account, d) && BelowOwn(db, account, d)
    requires IsBelow(r.prefix)
    ensures r.id in Ids(account, d, r.prefix) <==> Belongs(db, account, r) || IsUnassigned(account, d, r)
  {
    hide Placements, HasUnassigned;
    OwnVpcListed(db, account, d, r.id);
    hide OwnVpc;
  }

  lemma OwnBelongs(db: Db, account: string, d: Data, r: NodeRef)
    requires OwnRows(db, account, d) && !IsBelow(r.prefix)
    ensures r.id in Ids(account, d, r.prefix) <==> Belongs(db, account, r)
  {
    hide Placements, HasUnassigned;
  }

  lemma RowsBelong(db: Db, account: string, d: Data, r: NodeRef)
    requires OwnRows(db, account, d) && BelowOwn(db, account, d)
    ensures r.id in Ids(account, d, r.prefix) <==> Belongs(db, account, r) || IsUnassigned(account, d, r)
  {
    hide Ids, Belongs, OwnRows, BelowOwn;
    if IsBelow(r.prefix) { BelowBelongs(db, account, d, r); } else { OwnBelongs(db, account, d, r); }
  }

  lemma OwnAndBelow(db: Db, account: string)
    requires UniqueKeys(db)
    ensures var d := CollectAllData(db, account); OwnRows(db, account, d) && BelowOwn(db, account, d)
  {
    CollectOwn(db, account);
    CollectBelow(db, account);
  }

  /** Every node of an account's graph stands for one of its rows, save the unassigned bucket; and all its rows
      have nodes, save unused task definitions and instances outside its subnets. */
  lemma NodesBelong(db: Db, account: string, r: NodeRef)
    requires UniqueKeys(db)
    ensures var d := CollectAllData(db, account);
            Print(r) in NodeIds(Exec(ScriptOf(account, d))) <==>
            Belongs(db, account, r) || IsUnassigned(account, d, r)
  {
    hide *;
    var d := CollectAllData(db, account);
    OwnAndBelow(db, account);
    RowsBelong(db, account, d, r);
    InGraph(account, d, r);
  }

  lemma InGraph(account: string, d: Data, r: NodeRef)
    ensures Print(r) in NodeIds(Exec(ScriptOf(account, d))) <==> r.id in Ids(account, d, r.prefix)
  {
    RefsExact(account, d, r);
    hide Ids, Exec, ScriptOf, Print, NodeIds;
    NodesExact(ScriptOf(account, d));
  }
}
