/** The ECS sync methods as loops over AWS answers and tables, proved to do what module EcsSync says. */
module EcsServices {
  import opened Seqs
  import opened SyncTables
  import opened EcsSync

  /** Update the row of this ARN, or insert one. */
  method Save<P>(t: Table<P>, account: AccountId, item: Item<P>, now: int) returns (u: Table<P>)
    ensures u == Upsert(t, account, item, now)
  {
    var row := FindArn(t, item.arn);
    if row.Some? {
      u := t.(rows := t.rows[row.value := t.rows[row.value].(data := item.data, syncedAt := now)]);
    } else {
      u := Table(t.rows[t.next := Row(account, item.arn, item.data, now)], t.next + 1);
    }
  }

  class Service {
    var clusters: Table<string>
    var tasks: Table<TaskData>
    var services: Table<ServiceData>
    const roles: map<RowId, Role>
    const groups: map<RowId, Group>

    ghost function Tables(): Db
      reads this
    {
      Db(clusters, tasks, services, roles, groups)
    }

    constructor (roles: map<RowId, Role>, groups: map<RowId, Group>)
      ensures Tables() == Db(Table(map[], 0), Table(map[], 0), Table(map[], 0), roles, groups)
    {
      clusters, tasks, services := Table(map[], 0), Table(map[], 0), Table(map[], 0);
      this.roles, this.groups := roles, groups;
    }

    method SyncClustersFromAws(aws: Aws, account: AccountId, now: int) returns (ok: bool)
      modifies this`clusters
      ensures (Tables(), ok) == SyncClusters(old(Tables()), aws, account, now)
    {
      if aws.listClusters.None? { return false; }
      var arns := aws.listClusters.value;
      if arns == [] { return true; }
      var described := aws.describeClusters(arns);
      if described.None? { return false; }
      var items := described.value;
      for i := 0 to |items|
        invariant clusters == UpsertAll(old(clusters), account, items[..i], now)
      {
        var item := items[i];
        assert items[..i + 1] == items[..i] + [item];
        UpsertAllStep(old(clusters), account, items[..i], item, now);
        clusters := Save(clusters, account, item, now);
      }
      assert items[..|items|] == items;
      ok := true;
    }

    /** Follow the page tokens to the end of the chain. */
    method ListTaskDefinitions(pages: Pages) returns (arns: Option<seq<Arn>>)
      ensures arns == AllPages(pages)
    {
      var all: seq<Arn>, page, more := [], pages, true;
      assert forall rest: seq<Arn> :: all + rest == rest;
      while more
        invariant more ==> AllPages(pages) == match AllPages(page) case None => None case Some(rest) => Some(all + rest)
        invariant !more ==> AllPages(pages) == Some(all)
        decreases if more then 1 else 0, page
      {
        match page
        case Failing => return None;
        case LastPage(some) => all, more := all + some, false;
        case MorePages(some, rest) =>
          assert forall tail: seq<Arn> :: all + (some + tail) == all + some + tail;
          all, page := all + some, rest;
      }
      arns := Some(all);
    }

    /** A task definition with its IAM roles resolved in the account. */
    method TaskItemOf(t: TaskInfo, account: AccountId) returns (item: Item<TaskData>)
      ensures item == ResolvedTask(roles, account, t)
    {
      var executionRole, taskRole := FindRole(roles, account, t.executionRoleArn), FindRole(roles, account,
          t.taskRoleArn);
      item := Item(t.arn, TaskData(t.columns, t.executionRoleArn, t.taskRoleArn, executionRole, taskRole));
    }

    /** Describe and save the listed task definitions; stop when a description throws. */
    method SaveTaskDefinitions(arns: seq<Arn>, aws: Aws, account: AccountId, now: int) returns (ok: bool)
      modifies this`tasks
      ensures tasks == UpsertAll(old(tasks), account, TaskItems(roles, account, aws, arns), now)
      ensures ok <==> Handled(arns, TaskFails(aws)) == |arns|
    {
      ghost var item := TaskItem(roles, account, aws);
      assert UpsertAll(tasks, account, FlatMap(arns[..0], item), now) == tasks;
      hide UpsertAll, FlatMap, Upsert, ResolvedTask;
      for i := 0 to |arns|
        invariant i <= Handled(arns, TaskFails(aws))
        invariant tasks == UpsertAll(old(tasks), account, FlatMap(arns[..i], item), now)
      {
        var answer := aws.describeTask(arns[i]);
        FlatMapStep(arns, i, item);
        if answer.None? { assert TaskFails(aws)(arns[i]); return false; }
        assert !TaskFails(aws)(arns[i]);
        if answer.value.None? {
          assert item(arns[i]) == [] && FlatMap(arns[..i], item) + [] == FlatMap(arns[..i], item);
          continue;
        }
        var saved := TaskItemOf(answer.value.value, account);
        assert item(arns[i]) == [saved];
        UpsertAllStep(old(tasks), account, FlatMap(arns[..i], item), saved, now);
        tasks := Save(tasks, account, saved, now);
      }
      ok := true;
    }

    method SyncTaskDefinitionsFromAws(aws: Aws, account: AccountId, now: int) returns (ok: bool)
      modifies this`tasks
      ensures (Tables(), ok) == SyncTasks(old(Tables()), aws, account, now)
    {
      hide UpsertAll, TaskItems;
      var listed := ListTaskDefinitions(aws.taskPages);
      if listed.None? { return false; }
      ok := SaveTaskDefinitions(Unique(listed.value), aws, account, now);
    }

    /** The database ids of the known security groups, or null. */
    method ResolveSecurityGroupIds(account: AccountId, awsIds: seq<string>) returns (ids: Option<seq<RowId>>)
      ensures ids == ResolvedGroups(groups, account, awsIds)
    {
      var found: seq<RowId> := [];
      for i := 0 to |awsIds|
        invariant found == FlatMap(awsIds[..i], KnownGroup(groups, account))
      {
        FlatMapStep(awsIds, i, KnownGroup(groups, account));
        var group := FindGroup(groups, account, awsIds[i]);
        if group.None? { continue; }
        found := found + [group.value];
      }
      assert awsIds[..|awsIds|] == awsIds;
      ids := if |found| > 0 then Some(found) else None;
    }

    /** The services saved so far come from these items, in a run that began with db. */
    ghost predicate SavedSoFar(db: Db, account: AccountId, done: seq<Item<ServiceData>>, now: int)
      reads this
    {
      Tables() == db.(services := UpsertAll(db.services, account, done, now))
    }

    /** The body of the inner loop: skip a service whose cluster or task definition has no row. */
    method SaveService(s: ServiceInfo, account: AccountId, now: int, ghost db: Db, ghost done: seq<Item<ServiceData>>)
      requires SavedSoFar(db, account, done, now)
      modifies this`services
      ensures SavedSoFar(db, account, done + ServiceItem(db, account)(s), now)
    {
      hide UpsertAll, Upsert, ResolvedGroups;
      var cluster := FindArn(clusters, s.clusterArn);
      if cluster.None? { assert done + [] == done; return; }
      var task := FindArn(tasks, s.taskArn);
      if task.None? { assert done + [] == done; return; }
      var groupIds := ResolveSecurityGroupIds(account, s.groups);
      var role := FindRole(roles, account, s.roleArn);
      var item := Item(s.arn, ServiceData(s.columns, cluster.value, task.value, s.clusterArn, s.taskArn, s.roleArn,
                                          role, groupIds));
      UpsertAllStep(db.services, account, done, item, now);
      services := Save(services, account, item, now);
      assert ServiceItem(db, account)(s) == [item];
    }

    /** All services described for one cluster. */
    method SaveClusterServices(described: seq<ServiceInfo>, account: AccountId, now: int, ghost db: Db,
                               ghost done: seq<Item<ServiceData>>)
      requires SavedSoFar(db, account, done, now)
      modifies this`services
      ensures SavedSoFar(db, account, done + FlatMap(described, ServiceItem(db, account)), now)
    {
      hide UpsertAll, SavedSoFar, ServiceItem;
      ghost var item := ServiceItem(db, account);
      ghost var saved := done + FlatMap(described[..0], item);
      assert saved == done;
      hide FlatMap;
      for i := 0 to |described|
        invariant saved == done + FlatMap(described[..i], item)
        invariant SavedSoFar(db, account, saved, now)
      {
        FlatMapStep(described, i, item);
        SaveService(described[i], account, now, db, saved);
        saved := saved + item(described[i]);
      }
      assert described[..|described|] == described;
    }

    method SyncServicesFromAws(aws: Aws, account: AccountId, only: Option<RowId>, now: int) returns (ok: bool)
      modifies this`services
      ensures (Tables(), ok) == SyncServices(old(Tables()), aws, account, only, now)
    {
      var chosen: seq<Arn>;
      if only.Some? {
        if only.value !in clusters.rows { return false; }
        chosen := [clusters.rows[only.value].arn];
      } else {
        if aws.listClusters.None? { return false; }
        chosen := aws.listClusters.value;
      }
      ghost var db := Tables();
      ghost var items := ClusterItems(db, account, aws);
      assert SavedSoFar(db, account, FlatMap(chosen[..0], items), now);
      for i := 0 to |chosen|
        invariant i <= Handled(chosen, ClusterFails(aws))
        invariant SavedSoFar(db, account, FlatMap(chosen[..i], items), now)
      {
        hide UpsertAll, FlatMap, SavedSoFar, ServiceItem, Described;
        FlatMapStep(chosen, i, items);
        var described := Described(aws, chosen[i]);
        if described.None? {
          assert ClusterFails(aws)(chosen[i]) && Handled(chosen, ClusterFails(aws)) == i;
          Stopped(db, account, chosen, aws, i, now);
          return false;
        }
        assert !ClusterFails(aws)(chosen[i]);
        SaveClusterServices(described.value, account, now, db, FlatMap(chosen[..i], items));
      }
      Stopped(db, account, chosen, aws, |chosen|, now);
      ok := true;
    }

    lemma Stopped(db: Db, account: AccountId, chosen: seq<Arn>, aws: Aws, k: nat, now: int)
      requires k == Handled(chosen, ClusterFails(aws))
               && SavedSoFar(db, account, FlatMap(chosen[..k], ClusterItems(db, account, aws)), now)
      ensures Tables() == db.(services := UpsertAll(db.services, account, ServiceItems(db, account, aws, chosen), now))
    {
    }
  }
}
