/** Nothing is stored twice: every id of the model's buckets, subnets and resources stands in it as often as
    in the inventory. So for UUIDs the diagram declares no identifier twice. */
module PlacedOnce {
  import opened Seqs
  import opened Inventory
  import opened ArchitectureModel
  import opened GraphTheorems
  import opened Mermaid
  import opened MermaidIds

  lemma {:induction false} FlatMapConcat<T, U>(a: seq<T>, b: seq<T>, f: T -> seq<U>)
    ensures FlatMap(a + b, f) == FlatMap(a, f) + FlatMap(b, f)
  {
    if b == [] {
      assert a + b == a;
    } else {
      assert (a + b)[..|a + b| - 1] == a + b[..|b| - 1];
      FlatMapConcat(a, b[..|b| - 1], f);
    }
  }

  lemma FlatMapOne<T, U>(x: T, f: T -> seq<U>)
    ensures FlatMap([x], f) == f(x)
  {
    assert [x][..0] == [];
  }

  /** Elements whose key is one of these. */
  function Selected<T>(key: T -> string, keys: set<string>, g: T -> seq<string>): T -> seq<string>
  {
    (x: T) => if key(x) in keys then g(x) else []
  }

  lemma {:induction false} OneKeyMore<T>(s: seq<T>, key: T -> string, keys: set<string>, k: string, g: T -> seq<string>)
    requires k !in keys
    ensures multiset(FlatMap(s, Selected(key, keys + {k}, g))) ==
            multiset(FlatMap(s, Selected(key, keys, g))) + multiset(FlatMap(s, Selected(key, {k}, g)))
  {
    if s != [] { OneKeyMore(s[..|s| - 1], key, keys, k, g); }
  }

  lemma {:induction false} NoKeys<T>(s: seq<T>, key: T -> string, g: T -> seq<string>)
    ensures FlatMap(s, Selected(key, {}, g)) == []
  {
    if s != [] { NoKeys(s[..|s| - 1], key, g); }
  }

  lemma {:induction false} AllKeys<T>(s: seq<T>, key: T -> string, keys: set<string>, g: T -> seq<string>)
    requires forall x :: x in s ==> key(x) in keys
    ensures FlatMap(s, Selected(key, keys, g)) == FlatMap(s, g)
  {
    if s != [] {
      assert s[|s| - 1] in s;
      AllKeys(s[..|s| - 1], key, keys, g);
    }
  }

  // ----- buckets -----

  function HomeOf(p: Placement): string { p.home }

  /** The ids a placement adds: a subnet comes with the instances in it. */
  function ItemIds(item: Item): seq<string>
  {
    match item
    case InSlot(_, r) => IdOf(r)
    case InSubnets(s) => SubnetIdOf(s) + FlatMap(Ec2Of(s), IdOf)
  }

  function PlacementIds(p: Placement): seq<string> { ItemIds(p.item) }

  function SubnetIds(b: Bucket): multiset<string>
  {
    multiset(FlatMap(b.subnets, SubnetIdOf)) + multiset(FlatMap(FlatMap(b.subnets, Ec2Of), IdOf))
  }

  function SlotIds(b: Bucket): multiset<string>
  {
    multiset(FlatMap(b.routeTables, IdOf)) + multiset(FlatMap(b.securityGroups, IdOf))
    + multiset(FlatMap(b.loadBalancers, IdOf)) + multiset(FlatMap(b.databases, IdOf))
    + multiset(FlatMap(b.caches, IdOf)) + multiset(FlatMap(b.containers, IdOf)) + multiset(FlatMap(b.serverless, IdOf))
  }

  lemma BucketParts(b: Bucket)
    ensures multiset(BucketIdList(b)) == multiset(RootIds(b.id)) + SubnetIds(b) + SlotIds(b)
  {
    hide FlatMap;
    FlatMapConcat(b.databases, b.caches, IdOf);
  }

  lemma AddIds(b: Bucket, item: Item)
    ensures multiset(BucketIdList(Add(b, item))) == multiset(BucketIdList(b)) + multiset(ItemIds(item))
  {
    hide BucketIdList;
    BucketParts(b);
    BucketParts(Add(b, item));
    match item
    case InSlot(slot, r) => AddToSlot(b, slot, r);
    case InSubnets(s) => AddSubnet(b, s);
  }

  lemma AddToSlot(b: Bucket, slot: Slot, r: Resource)
    ensures var b' := b.PushTo(slot, r);
            SubnetIds(b') == SubnetIds(b) && SlotIds(b') == SlotIds(b) + multiset(IdOf(r))
  {
    hide FlatMap;
    FlatMapOne(r, IdOf);
    FlatMapConcat(b.Get(slot), [r], IdOf);
  }

  lemma AddSubnet(b: Bucket, s: SubnetSummary)
    ensures var b' := Add(b, InSubnets(s));
            b'.id == b.id && SlotIds(b') == SlotIds(b)
            && SubnetIds(b') == SubnetIds(b) + multiset(ItemIds(InSubnets(s)))
  {
    hide FlatMap;
    FlatMapConcat(b.subnets, [s], SubnetIdOf);
    FlatMapOne(s, SubnetIdOf);
    FlatMapConcat(b.subnets, [s], Ec2Of);
    FlatMapOne(s, Ec2Of);
    FlatMapConcat(FlatMap(b.subnets, Ec2Of), Ec2Of(s), IdOf);
  }

  /** A bucket gains the ids of the placements addressed to it. */
  lemma {:induction false} FillIds(b: Bucket, log: seq<Placement>)
    ensures multiset(BucketIdList(Fill(b, log))) ==
            multiset(BucketIdList(b)) + multiset(FlatMap(log, Selected(HomeOf, {b.id}, PlacementIds)))
  {
    hide BucketIdList, Add;
    var before, ids := BucketIdList(b), FlatMap(log, Selected(HomeOf, {b.id}, PlacementIds));
    if log == [] {
      assert multiset(before) + multiset(ids) == multiset(before);
    } else {
      var front, p := log[..|log| - 1], log[|log| - 1];
      FillIds(b, front);
      AddIds(Fill(b, front), p.item);
      var more := Selected(HomeOf, {b.id}, PlacementIds)(p);
      assert ids == FlatMap(front, Selected(HomeOf, {b.id}, PlacementIds)) + more;
      assert more == if p.home == b.id then ItemIds(p.item) else [];
    }
  }

  function RootIds(id: string): seq<string> { [id + "-ROOT"] }

  lemma EmptyIds(id: string, name: string, cidr: string)
    ensures multiset(BucketIdList(EmptyBucket(id, name, cidr))) == multiset(RootIds(id))
  {
    var b := EmptyBucket(id, name, cidr);
    BucketParts(b);
    hide BucketIdList;
    assert SubnetIds(b) == multiset{} && SlotIds(b) == multiset{};
    assert multiset(BucketIdList(b)) == multiset(RootIds(id)) + multiset{} + multiset{};
  }

  /** Different buckets share no placement. */
  lemma {:induction false} BucketsIds(account: string, d: Data, log: seq<Placement>, order: seq<string>)
    requires UniqueBy(order, Itself) && forall id :: id in order ==> id in VpcIds(d) || id == UnassignedId(account)
    ensures multiset(FlatMap(FlatMap(order, Filled(account, d, log)), BucketIdList)) ==
            multiset(FlatMap(order, RootIds))
            + multiset(FlatMap(log, Selected(HomeOf, Elements(order), PlacementIds)))
  {
    hide BucketIdList, Fill, Base;
    if order == [] {
      assert Elements(order) == {};
      NoKeys(log, HomeOf, PlacementIds);
    } else {
      var front, id := order[..|order| - 1], order[|order| - 1];
      assert order == front + [id] && id in order;
      assert Elements(order) == Elements(front) + {id};
      assert id !in Elements(front) by { NotBefore(order); }
      BucketsIds(account, d, log, front);
      var b := Fill(Base(account, d, id), log);
      FlatMapConcat(FlatMap(front, Filled(account, d, log)), [b], BucketIdList);
      FlatMapOne(b, BucketIdList);
      BaseFilled(account, d, log, id);
      OneKeyMore(log, HomeOf, Elements(front), id, PlacementIds);
    }
  }

  lemma NotBefore(order: seq<string>)
    requires UniqueBy(order, Itself) && order != []
    ensures order[|order| - 1] !in Elements(order[..|order| - 1])
  {
    forall i | 0 <= i < |order| - 1 ensures order[i] != order[|order| - 1] {
      assert Itself(order[i]) != Itself(order[|order| - 1]);
    }
  }

  lemma BaseFilled(account: string, d: Data, log: seq<Placement>, id: string)
    requires id in VpcIds(d) || id == UnassignedId(account)
    ensures multiset(BucketIdList(Fill(Base(account, d, id), log))) ==
            multiset(RootIds(id)) + multiset(FlatMap(log, Selected(HomeOf, {id}, PlacementIds)))
  {
    hide BucketIdList, Fill;
    BaseId(account, d, id);
    FillIds(Base(account, d, id), log);
    var b := Base(account, d, id);
    EmptyIds(id, b.name, b.cidrBlock);
    assert b == EmptyBucket(id, b.name, b.cidrBlock);
  }

  lemma {:induction false} KeysInOrder<T>(rows: seq<T>, key: T -> string, list: T -> seq<string>)
    requires UniqueBy(rows, key) && forall x :: list(x) == [key(x)]
    ensures UniqueBy(FlatMap(rows, list), Itself) && |FlatMap(rows, list)| == |rows|
    ensures forall i :: 0 <= i < |rows| ==> FlatMap(rows, list)[i] == key(rows[i])
  {
    if rows != [] { KeysInOrder(rows[..|rows| - 1], key, list); }
  }

  lemma OrderUnique(account: string, d: Data, log: seq<Placement>)
    requires WellKeyed(account, d)
    ensures UniqueBy(Order(account, d, log), Itself)
    ensures forall id :: id in Order(account, d, log) ==> id in VpcIds(d) || id == UnassignedId(account)
  {
    hide FlatMap, HasUnassigned;
    KeysInOrder(d.vpcs, IdOfVpc, IdList);
    forall id ensures id in FlatMap(d.vpcs, IdList) <==> id in VpcIds(d) { FlatMapMember(d.vpcs, IdList, id); }
    var ids := FlatMap(d.vpcs, IdList);
    assert forall i :: 0 <= i < |ids| ==> ids[i] in ids;
  }

  function GlobalIdsOf(d: Data): GlobalKind -> seq<string> { (k: GlobalKind) => FlatMap(GlobalResources(d)(k), IdOf) }

  /** The model holds each placement once, in one bucket; and each account-wide resource once. */
  lemma ModelHolds(account: string, d: Data)
    requires WellKeyed(account, d)
    ensures var log := Placements(account, d);
            multiset(ModelIds(BuildModel(account, d))) ==
            multiset(FlatMap(BLOCK_ORDER, GlobalIdsOf(d))) + multiset(FlatMap(Order(account, d, log), RootIds))
            + multiset(FlatMap(log, PlacementIds))
  {
    hide FlatMap, Placements, BucketIdList, Order, WellKeyed;
    var log := Placements(account, d);
    var order := Order(account, d, log);
    OrderUnique(account, d, log);
    BucketsIds(account, d, log, order);
    forall p | p in log ensures HomeOf(p) in Elements(order) { HomeInOrder(account, d, log, p); }
    AllKeys(log, HomeOf, Elements(order), PlacementIds);
    GlobalsSame(account, d);
  }

  lemma GlobalsSame(account: string, d: Data)
    ensures FlatMap(BLOCK_ORDER, GlobalIdList(BuildModel(account, d))) == FlatMap(BLOCK_ORDER, GlobalIdsOf(d))
  {
    hide Placements, Order;
    SameMap(BLOCK_ORDER, GlobalIdList(BuildModel(account, d)), GlobalIdsOf(d));
  }

  lemma {:induction false} SameMap<T, U>(s: seq<T>, f: T -> seq<U>, g: T -> seq<U>)
    requires forall x :: x in s ==> f(x) == g(x)
    ensures FlatMap(s, f) == FlatMap(s, g)
  {
    if s != [] {
      assert s[|s| - 1] in s;
      SameMap(s[..|s| - 1], f, g);
    }
  }

  lemma HomeInOrder(account: string, d: Data, log: seq<Placement>, p: Placement)
    requires log == Placements(account, d) && p in log
    ensures p.home in Order(account, d, log)
  {
    hide Placements;
    PlacementsHomed(account, d);
    OrderMember(account, d, log, p.home);
  }

  // ----- placements and rows -----

  function Keys<R>(rows: seq<R>, key: R -> string): seq<string> { FlatMap(rows, (r: R) => [key(r)]) }

  function AwsIdOf(s: Subnet): string { s.awsSubnetId }
  function AwsSubnetOf(e: Ec2): string { e.awsSubnetId }
  function Ec2Ids(e: Ec2): seq<string> { [e.id] }

  /** The instances in listed subnets, and the task definitions some service uses. */
  function HostedIds(d: Data): Ec2 -> seq<string> { (e: Ec2) => if Hosted(d, e) then [e.id] else [] }
  function UsedIds(d: Data): TaskDef -> seq<string> { (t: TaskDef) => if InUse(d, t.id) then [t.id] else [] }

  /** The ids of what the inventory holds and the diagram shows, table by table. */
  function ShownIds(d: Data): multiset<string>
  {
    multiset(Keys(d.subnets, IdOfSubnet)) + multiset(FlatMap(d.ec2Instances, HostedIds(d)))
    + multiset(Keys(d.securityGroups, IdOfPlaced)) + multiset(Keys(d.routeTables, IdOfRouteTable))
    + multiset(Keys(d.loadBalancers, IdOfLb)) + multiset(Keys(d.listeners, IdOfListener))
    + multiset(Keys(d.rds, IdOfPlaced)) + multiset(Keys(d.clusters, IdOfCluster))
    + multiset(FlatMap(d.taskDefs, UsedIds(d))) + multiset(Keys(d.services, IdOfService))
    + multiset(Keys(d.eks, IdOfPlaced)) + multiset(Keys(d.lambdas, IdOfPlaced)) + multiset(Keys(d.caches, IdOfPlaced))
  }

  /** A table that places one resource per row. */
  lemma {:induction false} TableIds<R>(rows: seq<R>, f: R -> seq<Placement>, ids: R -> seq<string>)
    requires forall r :: FlatMap(f(r), PlacementIds) == ids(r)
    ensures FlatMap(FlatMap(rows, f), PlacementIds) == FlatMap(rows, ids)
  {
    if rows != [] {
      TableIds(rows[..|rows| - 1], f, ids);
      FlatMapConcat(FlatMap(rows[..|rows| - 1], f), f(rows[|rows| - 1]), PlacementIds);
    }
  }

  lemma RowsOnce<R>(rows: seq<R>, f: R -> seq<Placement>, key: R -> string)
    requires forall r :: |f(r)| == 1 && ItemIds(f(r)[0].item) == [key(r)]
    ensures FlatMap(FlatMap(rows, f), PlacementIds) == Keys(rows, key)
  {
    forall r ensures FlatMap(f(r), PlacementIds) == [key(r)] {
      assert f(r) == [f(r)[0]];
      FlatMapOne(f(r)[0], PlacementIds);
    }
    TableIds(rows, f, (r: R) => [key(r)]);
  }

  lemma TaskDefsOnce(account: string, d: Data)
    ensures FlatMap(FlatMap(d.taskDefs, PlaceTaskDef(account, d)), PlacementIds) == FlatMap(d.taskDefs, UsedIds(d))
  {
    var f := PlaceTaskDef(account, d);
    forall t ensures FlatMap(f(t), PlacementIds) == UsedIds(d)(t) {
      if InUse(d, t.id) {
        assert f(t) == [f(t)[0]];
        FlatMapOne(f(t)[0], PlacementIds);
      }
    }
    TableIds(d.taskDefs, f, UsedIds(d));
  }

  // ----- instances in their subnets -----

  lemma {:induction false} HostedOnce(rows: seq<Ec2>, s: Subnet)
    ensures FlatMap(FlatMap(FlatMap(rows, HostedIn(s)), OnlyEc2), IdOf) ==
            FlatMap(rows, Selected(AwsSubnetOf, {s.awsSubnetId}, Ec2Ids))
  {
    if rows != [] {
      var front, e := rows[..|rows| - 1], rows[|rows| - 1];
      HostedOnce(front, s);
      OneHosted(e, s);
      hide HostedIn;
      var before := FlatMap(front, HostedIn(s));
      FlatMapConcat(before, HostedIn(s)(e), OnlyEc2);
      FlatMapConcat(FlatMap(before, OnlyEc2), FlatMap(HostedIn(s)(e), OnlyEc2), IdOf);
    }
  }

  lemma OneHosted(e: Ec2, s: Subnet)
    ensures FlatMap(FlatMap(HostedIn(s)(e), OnlyEc2), IdOf) == Selected(AwsSubnetOf, {s.awsSubnetId}, Ec2Ids)(e)
  {
    var r := Resource(e.id, Ec2Instance, e.name);
    FlatMapOne(r, OnlyEc2);
    FlatMapOne(r, IdOf);
    assert AwsSubnetOf(e) == e.awsSubnetId && Ec2Ids(e) == [e.id];
    if e.awsSubnetId == s.awsSubnetId {
      assert HostedIn(s)(e) == [r] && OnlyEc2(r) == [r];
    }
  }

  lemma OneSubnet(account: string, d: Data, s: Subnet)
    ensures FlatMap(PlaceSubnet(account, d)(s), PlacementIds) ==
            [s.id] + FlatMap(d.ec2Instances, Selected(AwsSubnetOf, {s.awsSubnetId}, Ec2Ids))
  {
    hide FlatMap;
    var p := PlaceSubnet(account, d)(s)[0];
    FlatMapOne(p, PlacementIds);
    HostedOnce(d.ec2Instances, s);
  }

  function AwsIds(rows: seq<Subnet>): set<string> { set s | s in rows :: AwsIdOf(s) }

  /** With distinct AWS subnet ids, each instance comes with one subnet. */
  lemma {:induction false} SubnetsOnce(account: string, d: Data, rows: seq<Subnet>)
    requires UniqueBy(rows, AwsIdOf)
    ensures multiset(FlatMap(FlatMap(rows, PlaceSubnet(account, d)), PlacementIds)) ==
            multiset(Keys(rows, IdOfSubnet))
            + multiset(FlatMap(d.ec2Instances, Selected(AwsSubnetOf, AwsIds(rows), Ec2Ids)))
  {
    hide PlaceSubnet, Selected;
    if rows == [] {
      assert AwsIds(rows) == {};
      NoKeys(d.ec2Instances, AwsSubnetOf, Ec2Ids);
    } else {
      var front, s := rows[..|rows| - 1], rows[|rows| - 1];
      OneAwsMore(rows);
      SubnetsOnce(account, d, front);
      OneSubnet(account, d, s);
      KeysStep(rows, IdOfSubnet);
      FlatMapStep(rows, |front|, PlaceSubnet(account, d));
      assert rows[..|front| + 1] == rows;
      hide FlatMap, Keys;
      FlatMapConcat(FlatMap(front, PlaceSubnet(account, d)), PlaceSubnet(account, d)(s), PlacementIds);
      OneKeyMore(d.ec2Instances, AwsSubnetOf, AwsIds(front), s.awsSubnetId, Ec2Ids);
    }
  }

  lemma KeysStep<R>(rows: seq<R>, key: R -> string)
    requires rows != []
    ensures Keys(rows, key) == Keys(rows[..|rows| - 1], key) + [key(rows[|rows| - 1])]
  {
  }

  lemma OneAwsMore(rows: seq<Subnet>)
    requires UniqueBy(rows, AwsIdOf) && rows != []
    ensures var (front, s) := (rows[..|rows| - 1], rows[|rows| - 1]);
            s.awsSubnetId !in AwsIds(front) && AwsIds(rows) == AwsIds(front) + {s.awsSubnetId}
  {
    var front, s := rows[..|rows| - 1], rows[|rows| - 1];
    assert rows == front + [s];
    assert AwsIdOf(s) == s.awsSubnetId && s in rows;
    forall id | id in AwsIds(rows) ensures id in AwsIds(front) + {s.awsSubnetId} {
      var x :| x in rows && AwsIdOf(x) == id;
    }
    forall x | x in front ensures AwsIdOf(x) != s.awsSubnetId {
      var i :| 0 <= i < |front| && front[i] == x;
      assert AwsIdOf(rows[i]) != AwsIdOf(rows[|rows| - 1]);
    }
  }

  lemma SubnetTable(account: string, d: Data)
    requires UniqueBy(d.subnets, AwsIdOf)
    ensures multiset(FlatMap(FlatMap(d.subnets, PlaceSubnet(account, d)), PlacementIds)) ==
            multiset(Keys(d.subnets, IdOfSubnet)) + multiset(FlatMap(d.ec2Instances, HostedIds(d)))
  {
    SubnetsOnce(account, d, d.subnets);
    hide FlatMap, PlaceSubnet, Keys;
    var f := Selected(AwsSubnetOf, AwsIds(d.subnets), Ec2Ids);
    forall e ensures f(e) == HostedIds(d)(e) {
      assert AwsSubnetOf(e) == e.awsSubnetId && Ec2Ids(e) == [e.id];
      HostedKnown(d, e);
    }
    SameMap(d.ec2Instances, f, HostedIds(d));
  }

  lemma HostedKnown(d: Data, e: Ec2)
    ensures Hosted(d, e) <==> e.awsSubnetId in AwsIds(d.subnets)
  {
    if e.awsSubnetId in AwsIds(d.subnets) {
      var s :| s in d.subnets && AwsIdOf(s) == e.awsSubnetId;
    }
    if Hosted(d, e) {
      var s :| s in d.subnets && s.awsSubnetId == e.awsSubnetId;
      assert AwsIdOf(s) in AwsIds(d.subnets);
    }
  }

  // ----- all tables -----

  lemma ShownPlaced(account: string, d: Data)
    requires UniqueBy(d.subnets, AwsIdOf)
    ensures multiset(FlatMap(Placements(account, d), PlacementIds)) == ShownIds(d)
  {
    SubnetTable(account, d);
    TaskDefsOnce(account, d);
    RowsOnce(d.securityGroups, PlaceIn(account, d, SecurityGroups, SecurityGroup), IdOfPlaced);
    RowsOnce(d.routeTables, PlaceRouteTable(account, d), IdOfRouteTable);
    RowsOnce(d.loadBalancers, PlaceLb(account, d), IdOfLb);
    RowsOnce(d.listeners, PlaceListener(account, d), IdOfListener);
    RowsOnce(d.rds, PlaceIn(account, d, Databases, RdsInstance), IdOfPlaced);
    RowsOnce(d.clusters, PlaceCluster(account), IdOfCluster);
    RowsOnce(d.services, PlaceService(account), IdOfService);
    RowsOnce(d.eks, PlaceIn(account, d, Containers, EksCluster), IdOfPlaced);
    RowsOnce(d.lambdas, PlaceIn(account, d, Serverless, LambdaFunction), IdOfPlaced);
    RowsOnce(d.caches, PlaceIn(account, d, Caches, ElastiCacheCluster), IdOfPlaced);
    PlacedParts(account, d);
  }

  /** The table-by-table list of placements, taken apart. */
  lemma PlacedParts(account: string, d: Data)
    ensures multiset(FlatMap(Placements(account, d), PlacementIds)) ==
            multiset(FlatMap(FlatMap(d.subnets, PlaceSubnet(account, d)), PlacementIds))
            + multiset(FlatMap(FlatMap(d.securityGroups, PlaceIn(account, d, SecurityGroups, SecurityGroup)),
                               PlacementIds))
            + multiset(FlatMap(FlatMap(d.routeTables, PlaceRouteTable(account, d)), PlacementIds))
            + multiset(FlatMap(FlatMap(d.loadBalancers, PlaceLb(account, d)), PlacementIds))
            + multiset(FlatMap(FlatMap(d.listeners, PlaceListener(account, d)), PlacementIds))
            + multiset(FlatMap(FlatMap(d.rds, PlaceIn(account, d, Databases, RdsInstance)), PlacementIds))
            + multiset(FlatMap(FlatMap(d.clusters, PlaceCluster(account)), PlacementIds))
            + multiset(FlatMap(FlatMap(d.taskDefs, PlaceTaskDef(account, d)), PlacementIds))
            + multiset(FlatMap(FlatMap(d.services, PlaceService(account)), PlacementIds))
            + multiset(FlatMap(FlatMap(d.eks, PlaceIn(account, d, Containers, EksCluster)), PlacementIds))
            + multiset(FlatMap(FlatMap(d.lambdas, PlaceIn(account, d, Serverless, LambdaFunction)), PlacementIds))
            + multiset(FlatMap(FlatMap(d.caches, PlaceIn(account, d, Caches, ElastiCacheCluster)), PlacementIds))
  {
    hide FlatMap, PlaceSubnet, PlaceIn, PlaceRouteTable, PlaceLb, PlaceListener, PlaceCluster, PlaceTaskDef,
         PlaceService;
    var p1 := FlatMap(d.subnets, PlaceSubnet(account, d));
    var p2 := FlatMap(d.securityGroups, PlaceIn(account, d, SecurityGroups, SecurityGroup));
    var p3 := FlatMap(d.routeTables, PlaceRouteTable(account, d));
    var p4 := FlatMap(d.loadBalancers, PlaceLb(account, d));
    var p5 := FlatMap(d.listeners, PlaceListener(account, d));
    var p6 := FlatMap(d.rds, PlaceIn(account, d, Databases, RdsInstance));
    var p7 := FlatMap(d.clusters, PlaceCluster(account));
    var p8 := FlatMap(d.taskDefs, PlaceTaskDef(account, d));
    var p9 := FlatMap(d.services, PlaceService(account));
    var p10 := FlatMap(d.eks, PlaceIn(account, d, Containers, EksCluster));
    var p11 := FlatMap(d.lambdas, PlaceIn(account, d, Serverless, LambdaFunction));
    var p12 := FlatMap(d.caches, PlaceIn(account, d, Caches, ElastiCacheCluster));
    FlatMapConcat(p1, p2, PlacementIds);
    FlatMapConcat(p1 + p2, p3, PlacementIds);
    FlatMapConcat(p1 + p2 + p3, p4, PlacementIds);
    FlatMapConcat(p1 + p2 + p3 + p4, p5, PlacementIds);
    FlatMapConcat(p1 + p2 + p3 + p4 + p5, p6, PlacementIds);
    FlatMapConcat(p1 + p2 + p3 + p4 + p5 + p6, p7, PlacementIds);
    FlatMapConcat(p1 + p2 + p3 + p4 + p5 + p6 + p7, p8, PlacementIds);
    FlatMapConcat(p1 + p2 + p3 + p4 + p5 + p6 + p7 + p8, p9, PlacementIds);
    FlatMapConcat(p1 + p2 + p3 + p4 + p5 + p6 + p7 + p8 + p9, p10, PlacementIds);
    FlatMapConcat(p1 + p2 + p3 + p4 + p5 + p6 + p7 + p8 + p9 + p10, p11, PlacementIds);
    FlatMapConcat(p1 + p2 + p3 + p4 + p5 + p6 + p7 + p8 + p9 + p10 + p11, p12, PlacementIds);
  }

  lemma ListIds(account: string, d: Data)
    requires WellKeyed(account, d)
    ensures multiset(FlatMap(Order(account, d, Placements(account, d)), RootIds)) ==
            multiset(RootsOf(account, d))
  {
    hide FlatMap, Placements, HasUnassigned;
    var roots := FlatMap(d.vpcs, IdList);
    FlatMapConcat(roots, [UnassignedId(account)], RootIds);
    FlatMapOne(UnassignedId(account), RootIds);
    assert roots + [] == roots;
    VpcRoots(d.vpcs);
  }

  function VpcRoot(v: Vpc): seq<string> { [v.id + "-ROOT"] }

  /** The roots of the listed VPCs, and of the unassigned bucket when something is placed in it. */
  function RootsOf(account: string, d: Data): seq<string>
  {
    FlatMap(d.vpcs, VpcRoot)
    + if HasUnassigned(account, Placements(account, d)) then [UnassignedId(account) + "-ROOT"] else []
  }

  lemma {:induction false} VpcRoots(rows: seq<Vpc>)
    ensures FlatMap(FlatMap(rows, IdList), RootIds) == FlatMap(rows, VpcRoot)
  {
    if rows != [] {
      var front, v := rows[..|rows| - 1], rows[|rows| - 1];
      VpcRoots(front);
      FlatMapConcat(FlatMap(front, IdList), IdList(v), RootIds);
      FlatMapOne(v.id, RootIds);
    }
  }

  /** Conservation, with multiplicity: the ids in the model are one root per bucket, one id per shown row, and
      one per account-wide resource. */
  lemma EachPlacedOnce(account: string, d: Data)
    requires WellKeyed(account, d) && UniqueBy(d.subnets, AwsIdOf)
    ensures multiset(ModelIds(BuildModel(account, d))) ==
            multiset(RootsOf(account, d)) + ShownIds(d) + multiset(FlatMap(BLOCK_ORDER, GlobalIdsOf(d)))
  {
    hide ModelIds, FlatMap, Placements, Order, RootsOf, ShownIds;
    ModelHolds(account, d);
    ShownPlaced(account, d);
    ListIds(account, d);
  }

  // ----- identifiers of the diagram -----

  /** The ids of all rows, VPCs included. */
  function RowIdsOf(d: Data): multiset<string>
  {
    multiset(Keys(d.vpcs, IdOfVpc)) + multiset(Keys(d.subnets, IdOfSubnet)) + multiset(Keys(d.ec2Instances, IdOfEc2))
    + multiset(Keys(d.securityGroups, IdOfPlaced)) + multiset(Keys(d.routeTables, IdOfRouteTable))
    + multiset(Keys(d.loadBalancers, IdOfLb)) + multiset(Keys(d.listeners, IdOfListener))
    + multiset(Keys(d.rds, IdOfPlaced)) + multiset(Keys(d.clusters, IdOfCluster))
    + multiset(Keys(d.taskDefs, IdOfTaskDef)) + multiset(Keys(d.services, IdOfService))
    + multiset(Keys(d.eks, IdOfPlaced)) + multiset(Keys(d.lambdas, IdOfPlaced)) + multiset(Keys(d.caches, IdOfPlaced))
    + multiset(FlatMap(BLOCK_ORDER, GlobalIdsOf(d)))
  }

  const UUID_LENGTH := 36

  predicate LikeUuid(id: string) { |id| == UUID_LENGTH && '_' !in id }

  /** Ids are UUIDs, and no two rows of any tables share one. */
  ghost predicate UuidRows(account: string, d: Data)
  {
    LikeUuid(account) && forall id :: id in RowIdsOf(d) ==> LikeUuid(id) && RowIdsOf(d)[id] == 1
  }

  lemma {:induction false} UniqueBag(xs: seq<string>)
    ensures UniqueBy(xs, Itself) <==> forall x :: multiset(xs)[x] <= 1
  {
    if xs != [] {
      var front, last := xs[..|xs| - 1], xs[|xs| - 1];
      assert xs == front + [last];
      UniqueBag(front);
      if UniqueBy(xs, Itself) {
        NotBefore(xs);
        assert last !in front;
        assert forall x :: multiset(xs)[x] == multiset(front)[x] + if x == last then 1 else 0;
      }
      if forall x :: multiset(xs)[x] <= 1 {
        assert forall x :: multiset(front)[x] <= multiset(xs)[x];
        assert multiset(xs)[last] == multiset(front)[last] + 1;
        assert last !in front;
      }
    }
  }

  lemma SumsMember(a: multiset<string>, b: multiset<string>, c: multiset<string>, x: string)
    ensures x in a + b + c <==> x in a || x in b || x in c
    ensures (a + b + c)[x] == a[x] + b[x] + c[x]
  {
  }

  lemma {:induction false} FewerIds<R>(rows: seq<R>, kept: R -> seq<string>, key: R -> string)
    requires forall r :: kept(r) == [key(r)] || kept(r) == []
    ensures multiset(FlatMap(rows, kept)) <= multiset(Keys(rows, key))
  {
    if rows != [] {
      FewerIds(rows[..|rows| - 1], kept, key);
      KeysStep(rows, key);
    }
  }

  /** Whatever is shown has a row, once. */
  lemma ShownAreRows(d: Data)
    ensures multiset(Keys(d.vpcs, IdOfVpc)) + ShownIds(d) + multiset(FlatMap(BLOCK_ORDER, GlobalIdsOf(d))) <=
            RowIdsOf(d)
  {
    FewerIds(d.ec2Instances, HostedIds(d), IdOfEc2);
    FewerIds(d.taskDefs, UsedIds(d), IdOfTaskDef);
    hide FlatMap, Keys;
  }

  lemma RootShape(account: string, d: Data, i: nat)
    requires UuidRows(account, d) && i < |RootsOf(account, d)|
    ensures |RootsOf(account, d)| <= |d.vpcs| + 1
    ensures var root := RootsOf(account, d)[i];
            '_' !in root && |root| > UUID_LENGTH
            && if i < |d.vpcs| then root == d.vpcs[i].id + "-ROOT" && |d.vpcs[i].id| == UUID_LENGTH
               else root == UnassignedId(account) + "-ROOT"
  {
    hide HasUnassigned, Placements, RowIdsOf, FlatMap;
    KeysAt(d.vpcs, VpcRoot);
    assert '_' !in UnassignedId(account) + "-ROOT";
    if i < |d.vpcs| {
      VpcIsRow(d, d.vpcs[i]);
      assert '_' !in d.vpcs[i].id + "-ROOT";
      assert FlatMap(d.vpcs, VpcRoot)[i] == VpcRoot(d.vpcs[i])[0];
    }
  }

  lemma {:induction false} KeysAt(rows: seq<Vpc>, list: Vpc -> seq<string>)
    requires forall v :: |list(v)| == 1
    ensures |FlatMap(rows, list)| == |rows|
    ensures forall i :: 0 <= i < |rows| ==> FlatMap(rows, list)[i] == list(rows[i])[0]
  {
    if rows != [] { KeysAt(rows[..|rows| - 1], list); }
  }

  lemma VpcIsRow(d: Data, v: Vpc)
    requires v in d.vpcs
    ensures v.id in RowIdsOf(d)
  {
    KeysMember(d.vpcs, IdOfVpc, v);
    hide Keys, ShownIds;
    assert IdOfVpc(v) == v.id;
  }

  lemma {:induction false} KeysMember<R>(rows: seq<R>, key: R -> string, r: R)
    requires r in rows
    ensures key(r) in Keys(rows, key)
  {
    KeysStep(rows, key);
    if r != rows[|rows| - 1] { KeysMember(rows[..|rows| - 1], key, r); }
  }

  lemma RootsUnique(account: string, d: Data)
    requires WellKeyed(account, d) && UuidRows(account, d)
    ensures UniqueBy(RootsOf(account, d), Itself)
    ensures forall r :: r in RootsOf(account, d) ==> '_' !in r && |r| > UUID_LENGTH
  {
    hide UuidRows, RootsOf;
    var roots := RootsOf(account, d);
    forall i | 0 <= i < |roots| ensures '_' !in roots[i] && |roots[i]| > UUID_LENGTH { RootShape(account, d, i); }
    forall i, j | 0 <= i < j < |roots| ensures roots[i] != roots[j] {
      RootShape(account, d, i);
      RootShape(account, d, j);
      assert IdOfVpc(d.vpcs[i]) == d.vpcs[i].id;
      if j < |d.vpcs| {
        assert IdOfVpc(d.vpcs[i]) != IdOfVpc(d.vpcs[j]);
        assert roots[i][..UUID_LENGTH] == d.vpcs[i].id && roots[j][..UUID_LENGTH] == d.vpcs[j].id;
      } else {
        assert |roots[i]| == UUID_LENGTH + 5;
        UnassignedLonger(account, d);
      }
    }
  }

  lemma UnassignedLonger(account: string, d: Data)
    requires UuidRows(account, d)
    ensures |UnassignedId(account) + "-ROOT"| == UUID_LENGTH + 16
  {
  }

  /** When ids are UUIDs and no two rows share one, the diagram of an inventory declares no identifier twice. */
  lemma InventoryDeclaredOnce(account: string, d: Data)
    requires WellKeyed(account, d) && UniqueBy(d.subnets, AwsIdOf) && UuidRows(account, d)
    ensures UniqueBy(DeclaredIds(Diagram(BuildModel(account, d))), Itself)
  {
    var ids := ModelIds(BuildModel(account, d));
    UniqueBag(ids);
    hide ModelIds, Diagram, BuildModel, UuidRows, WellKeyed;
    forall x ensures multiset(ids)[x] <= 1 && (x in ids ==> '_' !in x) { ModelIdOnce(account, d, x); }
    DistinctIdsDeclaredOnce(BuildModel(account, d));
  }

  lemma ModelIdOnce(account: string, d: Data, x: string)
    requires WellKeyed(account, d) && UniqueBy(d.subnets, AwsIdOf) && UuidRows(account, d)
    ensures var ids := ModelIds(BuildModel(account, d)); multiset(ids)[x] <= 1 && (x in ids ==> '_' !in x)
  {
    var roots, globals := RootsOf(account, d), multiset(FlatMap(BLOCK_ORDER, GlobalIdsOf(d)));
    EachPlacedOnce(account, d);
    RootsUnique(account, d);
    ShownId(account, d, x);
    hide ModelIds, RootsOf, ShownIds, BuildModel, UuidRows, WellKeyed, FlatMap;
    UniqueBag(roots);
    SumsMember(multiset(roots), ShownIds(d), globals, x);
    assert x in roots ==> |x| > UUID_LENGTH;
    assert x in ModelIds(BuildModel(account, d)) <==> x in multiset(ModelIds(BuildModel(account, d)));
  }

  lemma ShownId(account: string, d: Data, x: string)
    requires UuidRows(account, d)
    ensures var n := ShownIds(d)[x] + multiset(FlatMap(BLOCK_ORDER, GlobalIdsOf(d)))[x];
            n <= 1 && (n == 1 ==> LikeUuid(x))
  {
    ShownAreRows(d);
    hide FlatMap, ShownIds, RowIdsOf;
    var (vpcs, globals) := (multiset(Keys(d.vpcs, IdOfVpc)), multiset(FlatMap(BLOCK_ORDER, GlobalIdsOf(d))));
    SumsMember(vpcs, ShownIds(d), globals, x);
    assert (vpcs + ShownIds(d) + globals)[x] <= RowIdsOf(d)[x];
  }
}
