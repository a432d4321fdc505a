/** Which rows the ECS syncs store, what those rows hold, and which roles and security groups they link to. */
module EcsLinks {
  import opened Seqs
  import opened SyncTables
  import opened EcsSync

  // ----- links -----

  /** The row of the account's role with this ARN; none exactly when no ARN is given or no such role is known. */
  ghost predicate RoleLink(roles: map<RowId, Role>, account: AccountId, arn: Option<Arn>, link: Option<RowId>)
  {
    match link
    case Some(i) => arn.Some? && i in roles && roles[i] == Role(account, arn.value)
    case None => arn.None? || forall i :: i in roles ==> roles[i] != Role(account, arn.value)
  }

  ghost predicate IsGroup(groups: map<RowId, Group>, account: AccountId, awsId: string, i: RowId)
  {
    i in groups && groups[i] == Group(account, awsId)
  }

  ghost predicate Known(groups: map<RowId, Group>, account: AccountId, awsId: string)
  {
    exists i :: IsGroup(groups, account, awsId, i)
  }

  ghost predicate Increasing(at: seq<nat>, bound: nat)
  {
    (forall j :: 0 <= j < |at| ==> at[j] < bound) && forall i, j :: 0 <= i < j < |at| ==> at[i] < at[j]
  }

  /** The rows of the known groups: `at` lists the positions of all of them, in order. */
  ghost predicate GroupRows(groups: map<RowId, Group>, account: AccountId, awsIds: seq<string>, ids: seq<RowId>,
                            at: seq<nat>)
  {
    && |at| == |ids| && Increasing(at, |awsIds|)
    && (forall j :: 0 <= j < |at| ==> IsGroup(groups, account, awsIds[at[j]], ids[j]))
    && (forall k: nat :: k < |awsIds| && Known(groups, account, awsIds[k]) ==> k in at)
  }

  /** The rows of the known groups in the order listed, or null when none is known. */
  ghost predicate GroupsLink(groups: map<RowId, Group>, account: AccountId, awsIds: seq<string>,
                             link: Option<seq<RowId>>)
  {
    match link
    case Some(ids) => ids != [] && exists at: seq<nat> :: GroupRows(groups, account, awsIds, ids, at)
    case None => forall a :: a in awsIds ==> !Known(groups, account, a)
  }

  lemma RoleLinked(roles: map<RowId, Role>, account: AccountId, arn: Option<Arn>)
    ensures RoleLink(roles, account, arn, FindRole(roles, account, arn))
  {
  }

  lemma {:induction false} GroupsInOrder(groups: map<RowId, Group>, account: AccountId, awsIds: seq<string>)
    returns (at: seq<nat>)
    ensures GroupRows(groups, account, awsIds, FlatMap(awsIds, KnownGroup(groups, account)), at)
  {
    if awsIds == [] {
      at := [];
    } else {
      var n := |awsIds| - 1;
      at := GroupsInOrder(groups, account, awsIds[..n]);
      var found := FindGroup(groups, account, awsIds[n]);
      if found.Some? {
        at := at + [n];
        assert n in at;
      }
      assert Known(groups, account, awsIds[n]) ==> found.Some?;
      forall k: nat | k < |awsIds| && Known(groups, account, awsIds[k]) ensures k in at {
        if k < n { assert awsIds[..n][k] == awsIds[k]; }
      }
    }
  }

  lemma GroupsLinked(groups: map<RowId, Group>, account: AccountId, awsIds: seq<string>)
    ensures GroupsLink(groups, account, awsIds, ResolvedGroups(groups, account, awsIds))
  {
    var at := GroupsInOrder(groups, account, awsIds);
    forall a | a in awsIds && ResolvedGroups(groups, account, awsIds).None? ensures !Known(groups, account, a) {
      var k: nat :| k < |awsIds| && awsIds[k] == a;
    }
  }

  // ----- listing -----

  /** A chain of these pages. */
  function Chain(first: seq<Arn>, more: seq<seq<Arn>>): Pages
    decreases |more|
  {
    if more == [] then LastPage(first) else MorePages(first, Chain(more[0], more[1..]))
  }

  function Whole(page: seq<Arn>): seq<Arn> { page }

  /** Listing follows a chain of whatever length to its end, and keeps every ARN in order. */
  lemma {:induction false} PagesListed(first: seq<Arn>, more: seq<seq<Arn>>)
    ensures AllPages(Chain(first, more)) == Some(first + FlatMap(more, Whole))
    decreases |more|
  {
    if more == [] {
      assert first + [] == first;
    } else {
      PagesListed(more[0], more[1..]);
      FlatMapFirst(more);
    }
  }

  lemma {:induction false} FlatMapFirst(pages: seq<seq<Arn>>)
    requires pages != []
    ensures FlatMap(pages, Whole) == pages[0] + FlatMap(pages[1..], Whole)
    decreases |pages|
  {
    if |pages| > 1 {
      FlatMapFirst(pages[..|pages| - 1]);
      assert pages[..|pages| - 1][1..] == pages[1..][..|pages| - 2];
    } else {
      assert pages[..0] == [] && pages[1..] == [];
    }
  }

  ghost predicate SomePageFails(p: Pages) { p.Failing? || (p.MorePages? && SomePageFails(p.rest)) }

  /** It fails exactly when some page does; any other listing is such a chain. */
  lemma {:induction false} ListingFailsIff(p: Pages) returns (first: seq<Arn>, more: seq<seq<Arn>>)
    ensures AllPages(p).None? <==> SomePageFails(p)
    ensures !SomePageFails(p) ==> p == Chain(first, more)
  {
    match p
    case Failing => first, more := [], [];
    case LastPage(arns) => first, more := arns, [];
    case MorePages(arns, rest) =>
      var second, others := ListingFailsIff(rest);
      first, more := arns, [second] + others;
      assert more[1..] == others;
  }

  // ----- task definitions -----

  /** No description up to this position throws. */
  ghost predicate Reached(aws: Aws, arns: seq<Arn>, k: int)
  {
    0 <= k < |arns| && forall j :: 0 <= j <= k ==> aws.describeTask(arns[j]).Some?
  }

  /** AWS describes this task definition before any description throws. */
  ghost predicate TaskSeen(aws: Aws, arns: seq<Arn>, t: TaskInfo)
  {
    exists k :: Reached(aws, arns, k) && aws.describeTask(arns[k]) == Some(Some(t))
  }

  /** What the row of a described task definition holds. */
  ghost predicate TaskHolds(roles: map<RowId, Role>, account: AccountId, t: TaskInfo, data: TaskData)
  {
    && data.columns == t.columns && data.executionRoleArn == t.executionRoleArn && data.taskRoleArn == t.taskRoleArn
    && RoleLink(roles, account, t.executionRoleArn, data.executionRole)
    && RoleLink(roles, account, t.taskRoleArn, data.taskRole)
  }

  /** Listing an ARN twice changes nothing: the same ones are described before the first failure. */
  lemma {:induction false} UniqueHandled(s: seq<Arn>, fails: Arn -> bool)
    ensures var u := Unique(s);
            && (forall a :: a in u[..Handled(u, fails)] <==> a in s[..Handled(s, fails)])
            && (Handled(u, fails) == |u| <==> Handled(s, fails) == |s|)
  {
    if s != [] {
      var front, x := s[..|s| - 1], s[|s| - 1];
      assert s == front + [x];
      UniqueHandled(front, fails);
      var u := Unique(front);
      HandledMore(front, x, fails);
      HandledMore(u, x, fails);
      HandledAll(front, fails);
      var h, g := Handled(front, fails), Handled(u, fails);
      if h < |front| {
        assert s[..h] == front[..h] && Unique(s)[..g] == u[..g];
      } else {
        assert front[..h] == front && u[..g] == u && s[..h] == front;
        NoneFails(front, u, x, fails);
      }
    }
  }

  /** When the front is handled in full, so is x exactly when it does not fail. */
  lemma NoneFails(front: seq<Arn>, u: seq<Arn>, x: Arn, fails: Arn -> bool)
    requires Handled(front, fails) == |front| && Handled(u, fails) == |u| && forall a :: a in u <==> a in front
    ensures var (s, v) := (front + [x], if x in u then u else u + [x]);
            && (forall a :: a in v[..Handled(v, fails)] <==> a in s[..Handled(s, fails)])
            && (Handled(v, fails) == |v| <==> Handled(s, fails) == |s|)
  {
    HandledMore(front, x, fails);
    HandledMore(u, x, fails);
    HandledAll(front, fails);
    hide Handled;
    assert (front + [x])[..|front|] == front && (u + [x])[..|u|] == u && u[..|u|] == u;
    assert (front + [x])[..|front| + 1] == front + [x] && (u + [x])[..|u| + 1] == u + [x];
  }

  lemma {:induction false} HandledMore(s: seq<Arn>, x: Arn, fails: Arn -> bool)
    ensures Handled(s + [x], fails) ==
            if Handled(s, fails) < |s| || fails(x) then Handled(s, fails) else |s| + 1
  {
    if s == [] {
      assert s + [x] == [x] && [x][1..] == [];
    } else {
      assert (s + [x])[0] == s[0] && (s + [x])[1..] == s[1..] + [x];
      HandledMore(s[1..], x, fails);
    }
  }

  lemma HandledAll(s: seq<Arn>, fails: Arn -> bool)
    ensures Handled(s, fails) == |s| <==> forall a :: a in s ==> !fails(a)
  {
    var k := Handled(s, fails);
    if k < |s| { assert s[k] in s; }
  }

  lemma TaskItemIff(roles: map<RowId, Role>, account: AccountId, aws: Aws, all: seq<Arn>, item: Item<TaskData>)
    ensures item in TaskItems(roles, account, aws, Unique(all)) <==>
            exists t :: TaskSeen(aws, all, t) && item == ResolvedTask(roles, account, t)
  {
    hide ResolvedTask, TaskSeen;
    var u, f := Unique(all), TaskItem(roles, account, aws);
    var handled := u[..Handled(u, TaskFails(aws))];
    FlatMapMember(handled, f, item);
    UniqueHandled(all, TaskFails(aws));
    hide Handled, Unique, FlatMap, TaskItems;
    if a :| a in handled && item in f(a) { HandledSeen(aws, all, a); }
    if t :| TaskSeen(aws, all, t) && item == ResolvedTask(roles, account, t) {
      var a := SeenHandled(aws, all, t);
      assert item in f(a);
    }
  }

  lemma HandledSeen(aws: Aws, all: seq<Arn>, a: Arn)
    requires a in all[..Handled(all, TaskFails(aws))] && aws.describeTask(a).Some? && aws.describeTask(a).value.Some?
    ensures TaskSeen(aws, all, aws.describeTask(a).value.value)
  {
    var k :| 0 <= k < Handled(all, TaskFails(aws)) && all[k] == a;
    assert forall j :: 0 <= j <= k ==> !TaskFails(aws)(all[j]);
    hide Handled;
    assert Reached(aws, all, k);
  }

  lemma SeenHandled(aws: Aws, all: seq<Arn>, t: TaskInfo) returns (a: Arn)
    requires TaskSeen(aws, all, t)
    ensures a in all[..Handled(all, TaskFails(aws))] && aws.describeTask(a) == Some(Some(t))
  {
    var k :| Reached(aws, all, k) && aws.describeTask(all[k]) == Some(Some(t));
    a := all[k];
    HandledPast(aws, all, k);
    hide Handled;
    assert all[..Handled(all, TaskFails(aws))][k] == a;
  }

  lemma HandledPast(aws: Aws, all: seq<Arn>, k: nat)
    requires Reached(aws, all, k)
    ensures k < Handled(all, TaskFails(aws))
  {
    var h := Handled(all, TaskFails(aws));
    assert h < |all| ==> TaskFails(aws)(all[h]);
    assert forall j :: 0 <= j <= k ==> !TaskFails(aws)(all[j]);
  }

  /** After a task sync a definition has a row exactly when it had one, or AWS described it before the first
      description that threw; its row then holds what was described and links the roles of the account; all other
      rows are untouched. The sync reports success exactly when no description threw. */
  lemma TasksStoredIff(db: Db, aws: Aws, account: AccountId, now: int, all: seq<Arn>, arn: Arn)
    requires Keyed(db.tasks) && AllPages(aws.taskPages) == Some(all)
    ensures var (db', ok) := SyncTasks(db, aws, account, now);
            var seen := exists t :: TaskSeen(aws, all, t) && t.arn == arn;
            && (FindArn(db'.tasks, arn).Some? <==> FindArn(db.tasks, arn).Some? || seen)
            && (forall i :: i in db'.tasks.rows && db'.tasks.rows[i].arn == arn ==>
                  if seen then
                    && db'.tasks.rows[i].syncedAt == now
                    && exists t :: TaskSeen(aws, all, t) && t.arn == arn
                                   && TaskHolds(db.roles, account, t, db'.tasks.rows[i].data)
                  else i in db.tasks.rows && db'.tasks.rows[i] == db.tasks.rows[i])
            && db' == db.(tasks := db'.tasks)
            && (ok <==> forall a :: a in all ==> aws.describeTask(a).Some?)
  {
    hide TaskItems, UpsertAll, TaskSeen, TaskHolds, ResolvedTask, FindArn;
    var items := TaskItems(db.roles, account, aws, Unique(all));
    UpsertAllExact(db.tasks, account, items, now);
    TasksSeen(db.roles, account, aws, all, items, arn);
    UniqueHandled(all, TaskFails(aws));
    HandledAll(all, TaskFails(aws));
    StoredIff(db.tasks, SyncTasks(db, aws, account, now).0.tasks, account, items, now, arn);
    if Mentions(items, arn) { LastTask(db.roles, account, aws, all, items, arn); }
  }

  /** A synced table, seen from one ARN. */
  lemma StoredIff<P>(t: Table<P>, u: Table<P>, account: AccountId, items: seq<Item<P>>, now: int, arn: Arn)
    requires SyncOf(t, u, account, items, now)
    ensures FindArn(u, arn).Some? <==> FindArn(t, arn).Some? || Mentions(items, arn)
    ensures forall i :: i in u.rows && u.rows[i].arn == arn ==>
              if Mentions(items, arn) then u.rows[i].data == LastData(items, arn) && u.rows[i].syncedAt == now
              else i in t.rows && u.rows[i] == t.rows[i]
  {
    hide LastData;
    if Mentions(items, arn) {
      var k :| 0 <= k < |items| && items[k].arn == arn;
      assert FindArn(u, items[k].arn).Some?;
    }
    if FindArn(t, arn).Some? { assert FindArn(t, arn).value in u.rows; }
    forall i | i in u.rows && u.rows[i].arn == arn
      ensures if Mentions(items, arn) then u.rows[i].data == LastData(items, arn) && u.rows[i].syncedAt == now
              else i in t.rows && u.rows[i] == t.rows[i]
    {
      assert Synced(t, u, account, items, now, i);
    }
  }

  lemma TasksSeen(roles: map<RowId, Role>, account: AccountId, aws: Aws, all: seq<Arn>, items: seq<Item<TaskData>>,
                  arn: Arn)
    requires items == TaskItems(roles, account, aws, Unique(all))
    ensures Mentions(items, arn) <==> exists t :: TaskSeen(aws, all, t) && t.arn == arn
  {
    hide TaskItems, TaskSeen;
    if Mentions(items, arn) {
      var k :| 0 <= k < |items| && items[k].arn == arn;
      assert items[k] in items;
      TaskItemIff(roles, account, aws, all, items[k]);
    }
    if t :| TaskSeen(aws, all, t) && t.arn == arn {
      TaskItemIff(roles, account, aws, all, ResolvedTask(roles, account, t));
      var k :| 0 <= k < |items| && items[k] == ResolvedTask(roles, account, t);
    }
  }

  lemma LastTask(roles: map<RowId, Role>, account: AccountId, aws: Aws, all: seq<Arn>, items: seq<Item<TaskData>>,
                 arn: Arn)
    requires items == TaskItems(roles, account, aws, Unique(all)) && Mentions(items, arn)
    ensures exists t :: TaskSeen(aws, all, t) && t.arn == arn && TaskHolds(roles, account, t, LastData(items, arn))
  {
    hide TaskItems, TaskSeen, LastData, Mentions;
    LastDataListed(items, arn);
    TaskItemIff(roles, account, aws, all, Item(arn, LastData(items, arn)));
    var t :| TaskSeen(aws, all, t) && Item(arn, LastData(items, arn)) == ResolvedTask(roles, account, t);
    RoleLinked(roles, account, t.executionRoleArn);
    RoleLinked(roles, account, t.taskRoleArn);
  }

  // ----- clusters -----

  /** After a cluster sync a cluster has a row exactly when it had one, or AWS described it; a described one holds
      what was said of it last, and all other rows are untouched. When listing or describing throws, or nothing is
      listed, nothing changes. */
  lemma ClustersStoredIff(db: Db, aws: Aws, account: AccountId, now: int, arn: Arn)
    requires Keyed(db.clusters)
    ensures var (db', ok) := SyncClusters(db, aws, account, now);
            var answered := aws.listClusters.Some? && aws.listClusters.value != []
                            && aws.describeClusters(aws.listClusters.value).Some?;
            && (ok <==> answered || aws.listClusters == Some([]))
            && (!answered ==> db' == db)
            && db' == db.(clusters := db'.clusters)
            && (answered ==>
                  var items := aws.describeClusters(aws.listClusters.value).value;
                  && (FindArn(db'.clusters, arn).Some? <==> FindArn(db.clusters, arn).Some? || Mentions(items, arn))
                  && forall i :: i in db'.clusters.rows && db'.clusters.rows[i].arn == arn ==>
                       if Mentions(items, arn)
                       then db'.clusters.rows[i].data == LastData(items, arn) && db'.clusters.rows[i].syncedAt == now
                       else i in db.clusters.rows && db'.clusters.rows[i] == db.clusters.rows[i])
  {
    hide UpsertAll, LastData, Mentions, FindArn;
    if aws.listClusters.Some? && aws.listClusters.value != [] && aws.describeClusters(aws.listClusters.value).Some? {
      var items := aws.describeClusters(aws.listClusters.value).value;
      UpsertAllExact(db.clusters, account, items, now);
      StoredIff(db.clusters, SyncClusters(db, aws, account, now).0.clusters, account, items, now, arn);
    }
  }

  // ----- services -----

  /** AWS answers for this cluster: its services are listed and, when there are any, described. */
  predicate Answers(aws: Aws, cluster: Arn)
  {
    var arns := aws.listServices(cluster);
    arns.Some? && (arns.value == [] || aws.describeServices(cluster, arns.value).Some?)
  }

  /** AWS describes this service for the k-th cluster, having answered for all up to that one. */
  ghost predicate SeenAt(aws: Aws, clusters: seq<Arn>, s: ServiceInfo, k: int)
  {
    && 0 <= k < |clusters| && (forall j :: 0 <= j <= k ==> Answers(aws, clusters[j]))
    && var arns := aws.listServices(clusters[k]).value;
       arns != [] && s in aws.describeServices(clusters[k], arns).value
  }

  ghost predicate ServiceSeen(aws: Aws, clusters: seq<Arn>, s: ServiceInfo)
  {
    exists k :: SeenAt(aws, clusters, s, k)
  }

  /** Its cluster and its task definition have rows. */
  ghost predicate Placeable(db: Db, s: ServiceInfo)
  {
    && (exists i :: i in db.clusters.rows && db.clusters.rows[i].arn == s.clusterArn)
    && (exists i :: i in db.tasks.rows && db.tasks.rows[i].arn == s.taskArn)
  }

  /** What the row of a described service holds. */
  ghost predicate ServiceHolds(db: Db, account: AccountId, s: ServiceInfo, data: ServiceData)
  {
    && data.columns == s.columns && data.clusterArn == s.clusterArn && data.taskArn == s.taskArn
    && data.roleArn == s.roleArn && LinkedTo(db, data)
    && RoleLink(db.roles, account, s.roleArn, data.role) && GroupsLink(db.groups, account, s.groups, data.groups)
  }

  lemma AnswersDescribed(aws: Aws, cluster: Arn)
    ensures Answers(aws, cluster) <==> !ClusterFails(aws)(cluster)
    ensures forall s :: Answers(aws, cluster) ==>
              (s in Described(aws, cluster).value <==>
                 aws.listServices(cluster).value != []
                 && s in aws.describeServices(cluster, aws.listServices(cluster).value).value)
  {
  }

  lemma SeenDescribed(aws: Aws, clusters: seq<Arn>, s: ServiceInfo)
    ensures ServiceSeen(aws, clusters, s) <==>
            exists c :: c in clusters[..Handled(clusters, ClusterFails(aws))] && Described(aws, c).Some?
                        && s in Described(aws, c).value
  {
    var h := Handled(clusters, ClusterFails(aws));
    assert h < |clusters| ==> ClusterFails(aws)(clusters[h]);
    hide Handled, Described, Answers;
    forall c { AnswersDescribed(aws, c); }
    if k :| SeenAt(aws, clusters, s, k) {
      assert forall j :: 0 <= j <= k ==> Answers(aws, clusters[j]);
      assert clusters[..h][k] == clusters[k];
      assert !ClusterFails(aws)(clusters[k]);
    }
    if c :| c in clusters[..h] && Described(aws, c).Some? && s in Described(aws, c).value {
      var k :| 0 <= k < h && clusters[k] == c;
      assert forall j :: 0 <= j <= k ==> !ClusterFails(aws)(clusters[j]);
      assert SeenAt(aws, clusters, s, k);
    }
  }

  lemma PlaceableItem(db: Db, account: AccountId, s: ServiceInfo)
    ensures Placeable(db, s) <==> ServiceItem(db, account)(s) != []
    ensures forall item :: item in ServiceItem(db, account)(s) ==>
              item.arn == s.arn && ServiceHolds(db, account, s, item.data)
  {
    RoleLinked(db.roles, account, s.roleArn);
    GroupsLinked(db.groups, account, s.groups);
    hide RoleLink, GroupsLink, ResolvedGroups, FindRole;
  }

  lemma ServiceItemIff(db: Db, account: AccountId, aws: Aws, clusters: seq<Arn>, item: Item<ServiceData>)
    ensures item in ServiceItems(db, account, aws, clusters) <==>
            exists s :: ServiceSeen(aws, clusters, s) && item in ServiceItem(db, account)(s)
  {
    ServiceItemOrigin(db, account, aws, clusters, item);
    hide ServiceItems, ServiceItem, ServiceSeen, Described, Handled;
    forall s { SeenDescribed(aws, clusters, s); }
  }

  /** After a service sync over these clusters a service has a row exactly when it had one, or AWS described it
      before any cluster failed and its cluster and task definition have rows; its row then holds what was described,
      and links the rows of its cluster, task definition, role and known security groups. All other rows are
      untouched, and the sync reports success exactly when AWS answered for every cluster. */
  lemma ServiceRowsIff(db: Db, aws: Aws, account: AccountId, only: Option<RowId>, now: int, clusters: seq<Arn>,
                       arn: Arn)
    requires Keyed(db.services)
    requires match only
             case None => aws.listClusters == Some(clusters)
             case Some(i) => i in db.clusters.rows && clusters == [db.clusters.rows[i].arn]
    ensures var (db', ok) := SyncServices(db, aws, account, only, now);
            var stored := exists s :: ServiceSeen(aws, clusters, s) && s.arn == arn && Placeable(db, s);
            && (FindArn(db'.services, arn).Some? <==> FindArn(db.services, arn).Some? || stored)
            && (forall i :: i in db'.services.rows && db'.services.rows[i].arn == arn ==>
                  if stored then
                    && db'.services.rows[i].syncedAt == now
                    && exists s :: ServiceSeen(aws, clusters, s) && s.arn == arn
                                   && ServiceHolds(db, account, s, db'.services.rows[i].data)
                  else i in db.services.rows && db'.services.rows[i] == db.services.rows[i])
            && db' == db.(services := db'.services)
            && (ok <==> forall c :: c in clusters ==> Answers(aws, c))
  {
    hide ServiceItems, UpsertAll, ServiceSeen, ServiceHolds, Placeable, FindArn, Answers;
    var items := ServiceItems(db, account, aws, clusters);
    UpsertAllExact(db.services, account, items, now);
    ServicesSeen(db, account, aws, clusters, items, arn);
    HandledAll(clusters, ClusterFails(aws));
    forall c ensures Answers(aws, c) <==> !ClusterFails(aws)(c) { AnswersDescribed(aws, c); }
    StoredIff(db.services, SyncServices(db, aws, account, only, now).0.services, account, items, now, arn);
    if Mentions(items, arn) { LastService(db, account, aws, clusters, items, arn); }
  }

  /** When the clusters cannot be listed, or the chosen one has no row, the service sync fails and changes nothing. */
  lemma NoClustersNoSync(db: Db, aws: Aws, account: AccountId, only: Option<RowId>, now: int)
    ensures (only.None? && aws.listClusters.None?) || (only.Some? && only.value !in db.clusters.rows) ==>
              SyncServices(db, aws, account, only, now) == (db, false)
  {
    hide UpsertAll, ServiceItems;
  }

  lemma ServicesSeen(db: Db, account: AccountId, aws: Aws, clusters: seq<Arn>, items: seq<Item<ServiceData>>, arn: Arn)
    requires items == ServiceItems(db, account, aws, clusters)
    ensures Mentions(items, arn) <==> exists s :: ServiceSeen(aws, clusters, s) && s.arn == arn && Placeable(db, s)
  {
    hide ServiceItems, ServiceSeen, ServiceItem, Placeable, ServiceHolds;
    if Mentions(items, arn) {
      var k :| 0 <= k < |items| && items[k].arn == arn;
      assert items[k] in items;
      ServiceItemIff(db, account, aws, clusters, items[k]);
      var s :| ServiceSeen(aws, clusters, s) && items[k] in ServiceItem(db, account)(s);
      PlaceableItem(db, account, s);
    }
    if s :| ServiceSeen(aws, clusters, s) && s.arn == arn && Placeable(db, s) {
      PlaceableItem(db, account, s);
      var item := ServiceItem(db, account)(s)[0];
      ServiceItemIff(db, account, aws, clusters, item);
      var k :| 0 <= k < |items| && items[k] == item;
      assert item in ServiceItem(db, account)(s);
    }
  }

  lemma LastService(db: Db, account: AccountId, aws: Aws, clusters: seq<Arn>, items: seq<Item<ServiceData>>, arn: Arn)
    requires items == ServiceItems(db, account, aws, clusters) && Mentions(items, arn)
    ensures exists s :: ServiceSeen(aws, clusters, s) && s.arn == arn
                        && ServiceHolds(db, account, s, LastData(items, arn))
  {
    hide ServiceItems, ServiceSeen, ServiceItem, ServiceHolds, Placeable, LastData, Mentions;
    LastDataListed(items, arn);
    var item := Item(arn, LastData(items, arn));
    ServiceItemIff(db, account, aws, clusters, item);
    var s :| ServiceSeen(aws, clusters, s) && item in ServiceItem(db, account)(s);
    PlaceableItem(db, account, s);
  }

  // ----- links over runs -----

  /** Every stored link to a role of the account is right, and missing only where no such role is known. */
  ghost predicate RolesLinked(db: Db, account: AccountId)
  {
    && (forall i :: i in db.tasks.rows ==>
          var data := db.tasks.rows[i].data;
          RoleLink(db.roles, account, data.executionRoleArn, data.executionRole)
            && RoleLink(db.roles, account, data.taskRoleArn, data.taskRole))
    && (forall i :: i in db.services.rows ==>
          var data := db.services.rows[i].data; RoleLink(db.roles, account, data.roleArn, data.role))
  }

  lemma TasksLinked(db: Db, aws: Aws, account: AccountId, now: int)
    requires AllKeyed(db) && RolesLinked(db, account)
    ensures RolesLinked(SyncTasks(db, aws, account, now).0, account)
  {
    hide SyncTasks, RoleLink, TaskSeen, AllKeyed;
    var db' := SyncTasks(db, aws, account, now).0;
    assert Keyed(db.tasks) by { KeyedParts(db); }
    if AllPages(aws.taskPages).Some? {
      forall i | i in db'.tasks.rows
        ensures var data := db'.tasks.rows[i].data;
                RoleLink(db'.roles, account, data.executionRoleArn, data.executionRole)
                && RoleLink(db'.roles, account, data.taskRoleArn, data.taskRole)
      {
        TasksStoredIff(db, aws, account, now, AllPages(aws.taskPages).value, db'.tasks.rows[i].arn);
      }
      TasksStoredIff(db, aws, account, now, AllPages(aws.taskPages).value, "");
    } else {
      UnlistedUnchanged(db, aws, account, now);
    }
  }

  lemma KeyedParts(db: Db)
    requires AllKeyed(db)
    ensures Keyed(db.clusters) && Keyed(db.tasks) && Keyed(db.services)
  {
  }

  lemma UnlistedUnchanged(db: Db, aws: Aws, account: AccountId, now: int)
    requires AllPages(aws.taskPages).None?
    ensures SyncTasks(db, aws, account, now) == (db, false)
  {
  }

  lemma ServicesLinkRoles(db: Db, aws: Aws, account: AccountId, now: int)
    requires AllKeyed(db) && RolesLinked(db, account)
    ensures RolesLinked(SyncServices(db, aws, account, None, now).0, account)
  {
    hide SyncServices, RoleLink, ServiceSeen, AllKeyed, GroupsLink, LinkedTo, Placeable;
    var db' := SyncServices(db, aws, account, None, now).0;
    assert Keyed(db.services) by { KeyedParts(db); }
    if aws.listClusters.Some? {
      forall i | i in db'.services.rows
        ensures var data := db'.services.rows[i].data; RoleLink(db'.roles, account, data.roleArn, data.role)
      {
        ServiceRowsIff(db, aws, account, None, now, aws.listClusters.value, db'.services.rows[i].arn);
      }
      ServiceRowsIff(db, aws, account, None, now, aws.listClusters.value, "");
    } else {
      NoClustersNoSync(db, aws, account, None, now);
    }
  }

  /** The full sync of an account keeps all links to its roles right. */
  lemma SyncLinksRoles(db: Db, aws: Aws, account: AccountId, now: int)
    requires AllKeyed(db) && ServicesLinked(db) && RolesLinked(db, account)
    ensures RolesLinked(SyncAll(db, aws, account, now), account)
  {
    hide SyncTasks, SyncServices, ServicesLinked, AllKeyed, RoleLink;
    var db1 := SyncClusters(db, aws, account, now).0;
    var db2 := SyncTasks(db1, aws, account, now).0;
    ClustersSound(db, aws, account, now);
    assert RolesLinked(db1, account);
    TasksSound(db1, aws, account, now);
    TasksLinked(db1, aws, account, now);
    ServicesLinkRoles(db2, aws, account, now);
  }
}
