/** Synchronising ECS clusters, task definitions and services from AWS into three linked tables. */
module EcsSync {
  import opened Seqs
  import opened SyncTables

  datatype Role = Role(account: AccountId, arn: Arn)
  datatype Group = Group(account: AccountId, awsId: string)

  /** The columns of a task definition and a service that link to other tables; `columns` stands for the rest. */
  datatype TaskData = TaskData(
    columns: string, executionRoleArn: Option<Arn>, taskRoleArn: Option<Arn>, executionRole: Option<RowId>,
    taskRole: Option<RowId>)
  datatype ServiceData = ServiceData(
    columns: string, cluster: RowId, task: RowId, clusterArn: Arn, taskArn: Arn, roleArn: Option<Arn>,
    role: Option<RowId>,
    groups: Option<seq<RowId>>)

  /** What AWS describes. */
  datatype TaskInfo = TaskInfo(arn: Arn, columns: string, executionRoleArn: Option<Arn>, taskRoleArn: Option<Arn>)
  datatype ServiceInfo = ServiceInfo(arn: Arn, columns: string, clusterArn: Arn, taskArn: Arn, roleArn: Option<Arn>,
                                     groups: seq<string>)

  /** A page-token chain: each page but the last leads to another request. */
  datatype Pages = Failing | LastPage(arns: seq<Arn>) | MorePages(arns: seq<Arn>, rest: Pages)

  /** How AWS answers; None is a call that throws. */
  datatype Aws = Aws(
    listClusters: Option<seq<Arn>>, describeClusters: seq<Arn> -> Option<seq<Item<string>>>,
    taskPages: Pages, describeTask: Arn -> Option<Option<TaskInfo>>,
    listServices: Arn -> Option<seq<Arn>>, describeServices: (Arn, seq<Arn>) -> Option<seq<ServiceInfo>>)

  datatype Db = Db(
    clusters: Table<string>, tasks: Table<TaskData>, services: Table<ServiceData>,
    roles: map<RowId, Role>, groups: map<RowId, Group>)

  // ----- lookups -----

  function FindRole(roles: map<RowId, Role>, account: AccountId, arn: Option<Arn>): (r: Option<RowId>)
    ensures r.Some? ==> arn.Some? && r.value in roles && roles[r.value] == Role(account, arn.value)
    ensures r.None? <==> arn.None? || forall i :: i in roles ==> roles[i] != Role(account, arn.value)
  {
    if arn.None? then None
    else
      var found := set i | i in roles && roles[i] == Role(account, arn.value);
      if i :| i in roles && roles[i] == Role(account, arn.value) then assert i in found; Some(MaxOf(found)) else None
  }

  function FindGroup(groups: map<RowId, Group>, account: AccountId, awsId: string): (r: Option<RowId>)
    ensures r.Some? ==> r.value in groups && groups[r.value] == Group(account, awsId)
    ensures r.None? <==> forall i :: i in groups ==> groups[i] != Group(account, awsId)
  {
    var found := set i | i in groups && groups[i] == Group(account, awsId);
    if i :| i in groups && groups[i] == Group(account, awsId) then assert i in found; Some(MaxOf(found)) else None
  }

  function KnownGroup(groups: map<RowId, Group>, account: AccountId): string -> seq<RowId>
  {
    (awsId: string) => match FindGroup(groups, account, awsId) case None => [] case Some(i) => [i]
  }

  /** resolveSecurityGroupIds: the known groups in the order listed, or null when there are none. */
  function ResolvedGroups(groups: map<RowId, Group>, account: AccountId, awsIds: seq<string>): Option<seq<RowId>>
  {
    var known := FlatMap(awsIds, KnownGroup(groups, account));
    if known == [] then None else Some(known)
  }

  lemma GroupsResolvedExactly(groups: map<RowId, Group>, account: AccountId, awsIds: seq<string>)
    ensures var r := ResolvedGroups(groups, account, awsIds);
            && (r.None? <==> forall a :: a in awsIds ==> FindGroup(groups, account, a).None?)
            && (r.Some? ==> forall i: RowId :: i in r.value <==>
                  exists a :: a in awsIds && FindGroup(groups, account, a) == Some(i))
  {
    var f := KnownGroup(groups, account);
    var known := FlatMap(awsIds, f);
    forall i: RowId ensures i in known <==> exists a :: a in awsIds && FindGroup(groups, account, a) == Some(i) {
      FlatMapMember(awsIds, f, i);
      if a :| a in awsIds && FindGroup(groups, account, a) == Some(i) { assert i in f(a); }
    }
    if a :| a in awsIds && FindGroup(groups, account, a).Some? { assert FindGroup(groups, account, a).value in known; }
    if known != [] { assert known[0] in known; }
  }

  // ----- listing -----

  /** All pages of the chain, in order. */
  function AllPages(p: Pages): Option<seq<Arn>>
  {
    match p
    case Failing => None
    case LastPage(arns) => Some(arns)
    case MorePages(arns, rest) => (match AllPages(rest) case None => None case Some(more) => Some(arns + more))
  }

  /** Array.from(new Set(s)): first occurrences, in order. */
  function Unique(s: seq<Arn>): (r: seq<Arn>)
    ensures forall a :: a in r <==> a in s
    ensures forall i, j :: 0 <= i < j < |r| ==> r[i] != r[j]
  {
    if s == [] then []
    else
      assert s == s[..|s| - 1] + [s[|s| - 1]];
      var r := Unique(s[..|s| - 1]);
      if s[|s| - 1] in r then r else r + [s[|s| - 1]]
  }

  /** How many leading elements are handled before the first failure. */
  function Handled<T>(s: seq<T>, fails: T -> bool): (k: nat)
    ensures k <= |s| && (forall i :: 0 <= i < k ==> !fails(s[i])) && (k < |s| ==> fails(s[k]))
  {
    if s == [] || fails(s[0]) then 0 else 1 + Handled(s[1..], fails)
  }

  // ----- the three syncs -----

  function SyncClusters(db: Db, aws: Aws, account: AccountId, now: int): (Db, bool)
  {
    if aws.listClusters.None? then (db, false)
    else if aws.listClusters.value == [] then (db, true)
    else
      match aws.describeClusters(aws.listClusters.value)
      case None => (db, false)
      case Some(items) => (db.(clusters := UpsertAll(db.clusters, account, items, now)), true)
  }

  function ResolvedTask(roles: map<RowId, Role>, account: AccountId, t: TaskInfo): Item<TaskData>
  {
    Item(t.arn, TaskData(t.columns, t.executionRoleArn, t.taskRoleArn,
                         FindRole(roles, account, t.executionRoleArn), FindRole(roles, account, t.taskRoleArn)))
  }

  function TaskItem(roles: map<RowId, Role>, account: AccountId, aws: Aws): Arn -> seq<Item<TaskData>>
  {
    (arn: Arn) =>
      match aws.describeTask(arn)
      case None => []
      case Some(None) => []
      case Some(Some(t)) => [ResolvedTask(roles, account, t)]
  }

  function TaskFails(aws: Aws): Arn -> bool { (arn: Arn) => aws.describeTask(arn).None? }

  /** The items handled before a description throws. */
  function TaskItems(roles: map<RowId, Role>, account: AccountId, aws: Aws, arns: seq<Arn>): seq<Item<TaskData>>
  {
    FlatMap(arns[..Handled(arns, TaskFails(aws))], TaskItem(roles, account, aws))
  }

  function SyncTasks(db: Db, aws: Aws, account: AccountId, now: int): (Db, bool)
  {
    match AllPages(aws.taskPages)
    case None => (db, false)
    case Some(all) =>
      var arns := Unique(all);
      (db.(tasks := UpsertAll(db.tasks, account, TaskItems(db.roles, account, aws, arns), now)),
       Handled(arns, TaskFails(aws)) == |arns|)
  }

  /** A service is stored only when its cluster and its task definition have rows. */
  function ServiceItem(db: Db, account: AccountId): ServiceInfo -> seq<Item<ServiceData>>
  {
    (s: ServiceInfo) =>
      var (cluster, task) := (FindArn(db.clusters, s.clusterArn), FindArn(db.tasks, s.taskArn));
      if cluster.None? || task.None? then []
      else [Item(s.arn, ServiceData(s.columns, cluster.value, task.value, s.clusterArn, s.taskArn, s.roleArn,
                                    FindRole(db.roles, account, s.roleArn), ResolvedGroups(db.groups, account,
                                        s.groups)))]
  }

  /** The services described for a cluster; None when listing or describing throws. */
  function Described(aws: Aws, cluster: Arn): Option<seq<ServiceInfo>>
  {
    match aws.listServices(cluster)
    case None => None
    case Some(arns) => if arns == [] then Some([]) else aws.describeServices(cluster, arns)
  }

  function ClusterFails(aws: Aws): Arn -> bool { (cluster: Arn) => Described(aws, cluster).None? }

  function ClusterItems(db: Db, account: AccountId, aws: Aws): Arn -> seq<Item<ServiceData>>
  {
    (cluster: Arn) => match Described(aws, cluster) case None => [] case Some(s) => FlatMap(s, ServiceItem(db, account))
  }

  function ServiceItems(db: Db, account: AccountId, aws: Aws, clusters: seq<Arn>): seq<Item<ServiceData>>
  {
    FlatMap(clusters[..Handled(clusters, ClusterFails(aws))], ClusterItems(db, account, aws))
  }

  /** The clusters whose services are read: the one chosen, or those AWS lists. */
  function ChosenClusters(db: Db, aws: Aws, only: Option<RowId>): Option<seq<Arn>>
  {
    if only.None? then aws.listClusters
    else if only.value in db.clusters.rows then Some([db.clusters.rows[only.value].arn])
    else None
  }

  function SyncServices(db: Db, aws: Aws, account: AccountId, only: Option<RowId>, now: int): (Db, bool)
  {
    match ChosenClusters(db, aws, only)
    case None => (db, false)
    case Some(clusters) =>
      (db.(services := UpsertAll(db.services, account, ServiceItems(db, account, aws, clusters), now)),
       Handled(clusters, ClusterFails(aws)) == |clusters|)
  }

  /** The three syncs in order, whether or not an earlier one throws. */
  function SyncAll(db: Db, aws: Aws, account: AccountId, now: int): Db
  {
    var db1 := SyncClusters(db, aws, account, now).0;
    var db2 := SyncTasks(db1, aws, account, now).0;
    SyncServices(db2, aws, account, None, now).0
  }

  // ----- what the syncs keep -----

  ghost predicate AllKeyed(db: Db) { Keyed(db.clusters) && Keyed(db.tasks) && Keyed(db.services) }

  /** A stored service refers to the rows that have its cluster's and its task definition's ARNs. */
  ghost predicate LinkedTo(db: Db, s: ServiceData)
  {
    && s.cluster in db.clusters.rows && db.clusters.rows[s.cluster].arn == s.clusterArn
    && s.task in db.tasks.rows && db.tasks.rows[s.task].arn == s.taskArn
  }

  ghost predicate ServicesLinked(db: Db)
  {
    forall i :: i in db.services.rows ==> LinkedTo(db, db.services.rows[i].data)
  }

  lemma ClustersSound(db: Db, aws: Aws, account: AccountId, now: int)
    requires AllKeyed(db) && ServicesLinked(db)
    ensures var db' := SyncClusters(db, aws, account, now).0;
            AllKeyed(db') && ServicesLinked(db') && Extends(db.clusters, db'.clusters)
  {
    hide UpsertAll;
    var db' := SyncClusters(db, aws, account, now).0;
    if db' != db {
      UpsertAllExact(db.clusters, account, aws.describeClusters(aws.listClusters.value).value, now);
      forall i | i in db'.services.rows ensures LinkedTo(db', db'.services.rows[i].data) {
        assert LinkedTo(db, db.services.rows[i].data);
      }
    }
  }

  lemma TasksSound(db: Db, aws: Aws, account: AccountId, now: int)
    requires AllKeyed(db) && ServicesLinked(db)
    ensures var db' := SyncTasks(db, aws, account, now).0;
            AllKeyed(db') && ServicesLinked(db') && Extends(db.tasks, db'.tasks)
  {
    hide UpsertAll, TaskItems;
    var db' := SyncTasks(db, aws, account, now).0;
    if AllPages(aws.taskPages).Some? {
      UpsertAllExact(db.tasks, account, TaskItems(db.roles, account, aws, Unique(AllPages(aws.taskPages).value)), now);
      forall i | i in db'.services.rows ensures LinkedTo(db', db'.services.rows[i].data) {
        assert LinkedTo(db, db.services.rows[i].data);
      }
    }
  }

  lemma {:induction false} LastDataListed<P>(items: seq<Item<P>>, arn: Arn)
    requires Mentions(items, arn)
    ensures Item(arn, LastData(items, arn)) in items
  {
    MentionsStep(items, arn);
    if items[|items| - 1].arn != arn { LastDataListed(items[..|items| - 1], arn); }
  }

  /** An item comes from a described service whose cluster and task definition are known. */
  lemma ServiceItemOrigin(db: Db, account: AccountId, aws: Aws, clusters: seq<Arn>, item: Item<ServiceData>)
    ensures item in ServiceItems(db, account, aws, clusters) <==>
            exists c, s :: && c in clusters[..Handled(clusters, ClusterFails(aws))] && Described(aws, c).Some?
                           && s in Described(aws, c).value && item in ServiceItem(db, account)(s)
  {
    var handled := clusters[..Handled(clusters, ClusterFails(aws))];
    var f, g := ClusterItems(db, account, aws), ServiceItem(db, account);
    FlatMapMember(handled, f, item);
    if item in ServiceItems(db, account, aws, clusters) {
      var c :| c in handled && item in f(c);
      FlatMapMember(Described(aws, c).value, g, item);
      var s :| s in Described(aws, c).value && item in g(s);
      assert c in handled && s in Described(aws, c).value && item in ServiceItem(db, account)(s);
    }
    if c, s :| c in handled && Described(aws, c).Some? && s in Described(aws, c).value && item in g(s) {
      FlatMapMember(Described(aws, c).value, g, item);
      assert item in f(c);
    }
  }

  lemma ServicesSound(db: Db, aws: Aws, account: AccountId, only: Option<RowId>, now: int)
    requires AllKeyed(db) && ServicesLinked(db)
    ensures var db' := SyncServices(db, aws, account, only, now).0;
            AllKeyed(db') && ServicesLinked(db') && Extends(db.services, db'.services)
  {
    hide UpsertAll, ServiceItems, LinkedTo, LastData, Mentions;
    var db' := SyncServices(db, aws, account, only, now).0;
    var chosen := ChosenClusters(db, aws, only);
    if chosen.Some? {
      var items := ServiceItems(db, account, aws, chosen.value);
      UpsertAllExact(db.services, account, items, now);
      forall i | i in db'.services.rows ensures LinkedTo(db', db'.services.rows[i].data) {
        assert Synced(db.services, db'.services, account, items, now, i);
        if Mentions(items, db'.services.rows[i].arn) {
          LastDataListed(items, db'.services.rows[i].arn);
          ItemLinked(db, db', aws, account, chosen.value, Item(db'.services.rows[i].arn, db'.services.rows[i].data));
        } else {
          SameLinks(db, db', db.services.rows[i].data);
        }
      }
    }
  }

  lemma SameLinks(db: Db, db': Db, s: ServiceData)
    requires db'.clusters == db.clusters && db'.tasks == db.tasks
    ensures LinkedTo(db', s) <==> LinkedTo(db, s)
  {
  }

  lemma ItemLinked(db: Db, db': Db, aws: Aws, account: AccountId, clusters: seq<Arn>, item: Item<ServiceData>)
    requires db'.clusters == db.clusters && db'.tasks == db.tasks && item in ServiceItems(db, account, aws, clusters)
    ensures LinkedTo(db', item.data)
  {
    ServiceItemOrigin(db, account, aws, clusters, item);
  }

  /** The full sync keeps each table keyed by ARN, keeps every row's id, account and ARN, and stores only
      services linked to the rows of their own cluster and task definition. */
  lemma SyncKeepsTables(db: Db, aws: Aws, account: AccountId, now: int)
    requires AllKeyed(db) && ServicesLinked(db)
    ensures var db' := SyncAll(db, aws, account, now);
            && AllKeyed(db') && ServicesLinked(db')
            && Extends(db.clusters, db'.clusters) && Extends(db.tasks, db'.tasks) && Extends(db.services, db'.services)
  {
    var db1 := SyncClusters(db, aws, account, now).0;
    var db2 := SyncTasks(db1, aws, account, now).0;
    ClustersSound(db, aws, account, now);
    TasksSound(db1, aws, account, now);
    ServicesSound(db2, aws, account, None, now);
    assert SyncAll(db, aws, account, now).clusters == db1.clusters && SyncAll(db, aws, account, now).tasks == db2.tasks;
    assert db1.tasks == db.tasks && db2.services == db.services;
  }

  // ----- which services are stored -----

  ghost predicate Offered(db: Db, aws: Aws, clusters: seq<Arn>, arn: Arn)
  {
    exists c, s :: && c in clusters[..Handled(clusters, ClusterFails(aws))]
                   && Described(aws, c).Some? && s in Described(aws, c).value
                   && s.arn == arn && FindArn(db.clusters, s.clusterArn).Some? && FindArn(db.tasks, s.taskArn).Some?
  }

  lemma OfferedIsItem(db: Db, account: AccountId, aws: Aws, clusters: seq<Arn>, arn: Arn)
    ensures Offered(db, aws, clusters, arn) <==> Mentions(ServiceItems(db, account, aws, clusters), arn)
  {
    var items := ServiceItems(db, account, aws, clusters);
    if c, s :| && c in clusters[..Handled(clusters, ClusterFails(aws))]
               && Described(aws, c).Some? && s in Described(aws, c).value
               && s.arn == arn && FindArn(db.clusters, s.clusterArn).Some? && FindArn(db.tasks, s.taskArn).Some? {
      var item := ServiceItem(db, account)(s)[0];
      ServiceItemOrigin(db, account, aws, clusters, item);
      assert item in items;
    }
    if Mentions(items, arn) {
      var k :| 0 <= k < |items| && items[k].arn == arn;
      ServiceItemOrigin(db, account, aws, clusters, items[k]);
    }
  }

  /** After a service sync a service has a row if and only if it had one, or AWS described it and its cluster
      and task definition have rows; and rows of services not so described are untouched. */
  lemma ServicesStoredIff(db: Db, aws: Aws, account: AccountId, only: Option<RowId>, now: int, arn: Arn)
    requires Keyed(db.services) && ChosenClusters(db, aws, only).Some?
    ensures var db' := SyncServices(db, aws, account, only, now).0;
            var offered := Offered(db, aws, ChosenClusters(db, aws, only).value, arn);
            && (FindArn(db'.services, arn).Some? <==> (FindArn(db.services, arn).Some? || offered))
            && (!offered ==> forall i :: i in db.services.rows && db.services.rows[i].arn == arn ==>
                  i in db'.services.rows && db'.services.rows[i] == db.services.rows[i])
            && db' == db.(services := db'.services)
  {
    hide ServiceItems, Offered, UpsertAll;
    var clusters := ChosenClusters(db, aws, only).value;
    var items := ServiceItems(db, account, aws, clusters);
    OfferedIsItem(db, account, aws, clusters, arn);
    UpsertAllExact(db.services, account, items, now);
    var t := SyncServices(db, aws, account, only, now).0.services;
    forall i | i in t.rows && t.rows[i].arn == arn
      ensures Mentions(items, arn) || (i in db.services.rows && db.services.rows[i] == t.rows[i])
    {
      assert Synced(db.services, t, account, items, now, i);
    }
    if Mentions(items, arn) {
      var k :| 0 <= k < |items| && items[k].arn == arn;
      assert FindArn(t, items[k].arn).Some?;
    }
    if FindArn(db.services, arn).Some? { assert FindArn(db.services, arn).value in t.rows; }
  }

  // ----- syncing twice -----

  lemma SameItems(db: Db, db': Db, account: AccountId, aws: Aws, clusters: seq<Arn>)
    requires SameShape(db.clusters, db'.clusters) && SameShape(db.tasks, db'.tasks) && db'.roles == db.roles
             && db'.groups == db.groups
    ensures ServiceItems(db, account, aws, clusters) == ServiceItems(db', account, aws, clusters)
  {
    var f, g := ServiceItem(db, account), ServiceItem(db', account);
    forall s: ServiceInfo ensures f(s) == g(s) {
      SameFind(db.clusters, db'.clusters, s.clusterArn);
      SameFind(db.tasks, db'.tasks, s.taskArn);
    }
    var p, q := ClusterItems(db, account, aws), ClusterItems(db', account, aws);
    forall c: Arn ensures p(c) == q(c) {
      if Described(aws, c).Some? { FlatMapSame(Described(aws, c).value, f, g); }
    }
    FlatMapSame(clusters[..Handled(clusters, ClusterFails(aws))], p, q);
  }

  lemma {:induction false} FlatMapSame<T, U>(s: seq<T>, f: T -> seq<U>, g: T -> seq<U>)
    requires forall x :: f(x) == g(x)
    ensures FlatMap(s, f) == FlatMap(s, g)
  {
    if s != [] { FlatMapSame(s[..|s| - 1], f, g); }
  }

  lemma ResyncShape<P>(t: Table<P>, account: AccountId, items: seq<Item<P>>, first: int, second: int)
    requires Keyed(t)
    ensures var u := UpsertAll(t, account, items, first);
            SameShape(u, UpsertAll(t, account, items, second))
              && UpsertAll(u, account, items, second) == UpsertAll(t, account, items, second)
  {
    UpsertAllShape(t, t, account, items, first, second);
    Resync(t, account, items, first, second);
  }

  lemma ShapeRefl<P>(t: Table<P>)
    ensures SameShape(t, t)
  {
  }

  /** x and y start from the same clusters; z is where x's first sync led. */
  lemma ClustersTwice(x: Db, y: Db, z: Db, aws: Aws, account: AccountId, first: int, second: int)
    requires Keyed(x.clusters) && x.clusters == y.clusters
             && z.clusters == SyncClusters(x, aws, account, first).0.clusters
    ensures SameShape(SyncClusters(x, aws, account, first).0.clusters, SyncClusters(y, aws, account, second).0.clusters)
    ensures SyncClusters(z, aws, account, second).0.clusters == SyncClusters(y, aws, account, second).0.clusters
  {
    hide UpsertAll, SameShape, Keyed;
    ShapeRefl(x.clusters);
    if aws.listClusters.Some? && aws.listClusters.value != [] && aws.describeClusters(aws.listClusters.value).Some? {
      ResyncShape(x.clusters, account, aws.describeClusters(aws.listClusters.value).value, first, second);
    }
  }

  lemma TasksTwice(x: Db, y: Db, z: Db, aws: Aws, account: AccountId, first: int, second: int)
    requires Keyed(x.tasks) && x.tasks == y.tasks && x.roles == y.roles == z.roles
    requires z.tasks == SyncTasks(x, aws, account, first).0.tasks
    ensures SameShape(SyncTasks(x, aws, account, first).0.tasks, SyncTasks(y, aws, account, second).0.tasks)
    ensures SyncTasks(z, aws, account, second).0.tasks == SyncTasks(y, aws, account, second).0.tasks
  {
    hide UpsertAll, TaskItems, SameShape, Keyed;
    ShapeRefl(x.tasks);
    if AllPages(aws.taskPages).Some? {
      ResyncShape(x.tasks, account, TaskItems(x.roles, account, aws, Unique(AllPages(aws.taskPages).value)), first,
                  second);
    }
  }

  lemma ServicesTwice(x: Db, y: Db, z: Db, aws: Aws, account: AccountId, first: int, second: int)
    requires Keyed(x.services) && x.services == y.services && x.roles == y.roles == z.roles
             && x.groups == y.groups == z.groups
    requires SameShape(x.clusters, y.clusters) && SameShape(x.tasks, y.tasks) && z.clusters == y.clusters
             && z.tasks == y.tasks
    requires z.services == SyncServices(x, aws, account, None, first).0.services
    ensures SyncServices(z, aws, account, None, second).0.services == SyncServices(y, aws, account, None,
        second).0.services
  {
    hide UpsertAll, ServiceItems, SameShape, Keyed;
    if aws.listClusters.Some? {
      var clusters := aws.listClusters.value;
      SameItems(x, y, account, aws, clusters);
      ShapeRefl(y.clusters);
      ShapeRefl(y.tasks);
      SameItems(z, y, account, aws, clusters);
      ResyncShape(x.services, account, ServiceItems(y, account, aws, clusters), first, second);
    }
  }

  /** On unchanged AWS answers a second sync leaves what a single one at the later time would have left: the
      same rows under the same ids, differing from the first sync in the time stamp only. */
  lemma SyncIdempotent(db: Db, aws: Aws, account: AccountId, first: int, second: int)
    requires AllKeyed(db)
    ensures SyncAll(SyncAll(db, aws, account, first), aws, account, second) == SyncAll(db, aws, account, second)
  {
    hide UpsertAll, TaskItems, ServiceItems, SameShape, Keyed;
    var a1, b1 := SyncClusters(db, aws, account, first).0, SyncClusters(db, aws, account, second).0;
    var a2, b2 := SyncTasks(a1, aws, account, first).0, SyncTasks(b1, aws, account, second).0;
    var a3 := SyncServices(a2, aws, account, None, first).0;
    var c1 := SyncClusters(a3, aws, account, second).0;
    var c2 := SyncTasks(c1, aws, account, second).0;
    ClustersTwice(db, db, a3, aws, account, first, second);
    TasksTwice(a1, b1, c1, aws, account, first, second);
    ServicesTwice(a2, b2, c2, aws, account, first, second);
  }
}
