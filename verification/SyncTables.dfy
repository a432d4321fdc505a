/** A synchronised table: rows keyed by their own id, found by ARN, inserted or updated one at a time. */
module SyncTables {
  import opened Seqs

  type Arn = string
  type RowId = nat
  type AccountId = nat

  datatype Row<P> = Row(account: AccountId, arn: Arn, data: P, syncedAt: int)
  datatype Table<P> = Table(rows: map<RowId, Row<P>>, next: RowId)
  datatype Item<P> = Item(arn: Arn, data: P)

  function WithArn<P>(t: Table<P>, arn: Arn): set<RowId> { set i | i in t.rows && t.rows[i].arn == arn }

  /** findOne({ where: { arn } }) */
  function FindArn<P>(t: Table<P>, arn: Arn): (r: Option<RowId>)
    ensures r.None? <==> forall i :: i in t.rows ==> t.rows[i].arn != arn
    ensures r.Some? ==> r.value in t.rows && t.rows[r.value].arn == arn
  {
    if i :| i in t.rows && t.rows[i].arn == arn then assert i in WithArn(t, arn); Some(MaxOf(WithArn(t, arn))) else None
  }

  /** An existing row keeps its id, account and ARN; a new one gets the syncing account. */
  function Upsert<P>(t: Table<P>, account: AccountId, item: Item<P>, now: int): Table<P>
  {
    match FindArn(t, item.arn)
    case Some(i) => t.(rows := t.rows[i := t.rows[i].(data := item.data, syncedAt := now)])
    case None => Table(t.rows[t.next := Row(account, item.arn, item.data, now)], t.next + 1)
  }

  function UpsertAll<P>(t: Table<P>, account: AccountId, items: seq<Item<P>>, now: int): Table<P>
  {
    if items == [] then t else Upsert(UpsertAll(t, account, items[..|items| - 1], now), account, items[|items| - 1],
                                      now)
  }

  lemma UpsertAllStep<P>(t: Table<P>, account: AccountId, items: seq<Item<P>>, item: Item<P>, now: int)
    ensures UpsertAll(t, account, items + [item], now) == Upsert(UpsertAll(t, account, items, now), account, item, now)
  {
    assert (items + [item])[..|items|] == items;
  }

  /** One row per ARN, and ids below the counter. */
  ghost predicate Keyed<P>(t: Table<P>)
  {
    && (forall i :: i in t.rows ==> i < t.next)
    && (forall i, j :: i in t.rows && j in t.rows && t.rows[i].arn == t.rows[j].arn ==> i == j)
  }

  ghost predicate Mentions<P>(items: seq<Item<P>>, arn: Arn) { exists k :: 0 <= k < |items| && items[k].arn == arn }

  /** What the last item for this ARN says. */
  function LastData<P>(items: seq<Item<P>>, arn: Arn): P
    requires Mentions(items, arn)
  {
    if items[|items| - 1].arn == arn then items[|items| - 1].data else LastData(items[..|items| - 1], arn)
  }

  /** Same ids, accounts and ARNs. */
  ghost predicate SameShape<P>(t: Table<P>, u: Table<P>)
  {
    && t.rows.Keys == u.rows.Keys && t.next == u.next
    && forall i :: i in t.rows ==> t.rows[i].account == u.rows[i].account && t.rows[i].arn == u.rows[i].arn
  }

  /** Every old row is still there under its id, account and ARN. */
  ghost predicate Extends<P>(t: Table<P>, u: Table<P>)
  {
    forall i :: i in t.rows ==> i in u.rows && t.rows[i].account == u.rows[i].account && t.rows[i].arn == u.rows[i].arn
  }

  /** What the row holds after a sync of these items. */
  ghost predicate Synced<P>(t: Table<P>, u: Table<P>, account: AccountId, items: seq<Item<P>>, now: int, i: RowId)
    requires i in u.rows
  {
    if Mentions(items, u.rows[i].arn) then
      u.rows[i].data == LastData(items, u.rows[i].arn) && u.rows[i].syncedAt == now
        && (i in t.rows || u.rows[i].account == account)
    else
      i in t.rows && u.rows[i] == t.rows[i]
  }

  lemma UpsertKeyed<P>(t: Table<P>, account: AccountId, item: Item<P>, now: int)
    requires Keyed(t)
    ensures var u := Upsert(t, account, item, now);
            Keyed(u) && Extends(t, u) && FindArn(u, item.arn).Some?
  {
    var u := Upsert(t, account, item, now);
    var i := if FindArn(t, item.arn).Some? then FindArn(t, item.arn).value else t.next;
    assert i in u.rows && u.rows[i].arn == item.arn;
  }

  ghost predicate AllFound<P>(t: Table<P>, items: seq<Item<P>>)
  {
    forall k :: 0 <= k < |items| ==> FindArn(t, items[k].arn).Some?
  }

  /** The table u is what a sync of these items makes of t. */
  ghost predicate SyncOf<P>(t: Table<P>, u: Table<P>, account: AccountId, items: seq<Item<P>>, now: int)
  {
    Keyed(u) && Extends(t, u) && (forall i :: i in u.rows ==> Synced(t, u, account, items, now, i))
      && AllFound(u, items)
  }

  lemma SyncOfStep<P>(t: Table<P>, m: Table<P>, account: AccountId, items: seq<Item<P>>, now: int)
    requires items != [] && SyncOf(t, m, account, items[..|items| - 1], now)
    ensures SyncOf(t, Upsert(m, account, items[|items| - 1], now), account, items, now)
  {
    hide Synced, AllFound, Upsert;
    var u := Upsert(m, account, items[|items| - 1], now);
    UpsertKeyed(m, account, items[|items| - 1], now);
    StillFound(m, u, items);
    forall i | i in u.rows ensures Synced(t, u, account, items, now, i) {
      SyncedStep(t, m, account, items, now, i);
    }
  }

  /** After a sync the table is still keyed by ARN, old rows keep their ids, every listed ARN has a row with
      the last listed data, and rows not listed are untouched. */
  lemma {:induction false} UpsertAllExact<P>(t: Table<P>, account: AccountId, items: seq<Item<P>>, now: int)
    requires Keyed(t)
    ensures SyncOf(t, UpsertAll(t, account, items, now), account, items, now)
  {
    if items != [] {
      hide SyncOf, Upsert, Keyed;
      UpsertAllExact(t, account, items[..|items| - 1], now);
      SyncOfStep(t, UpsertAll(t, account, items[..|items| - 1], now), account, items, now);
    }
  }

  lemma StillFound<P>(m: Table<P>, u: Table<P>, items: seq<Item<P>>)
    requires items != [] && Extends(m, u) && FindArn(u, items[|items| - 1].arn).Some?
    requires AllFound(m, items[..|items| - 1])
    ensures AllFound(u, items)
  {
    forall k | 0 <= k < |items| - 1 ensures FindArn(u, items[k].arn).Some? {
      assert FindArn(m, items[..|items| - 1][k].arn).Some?;
      assert items[..|items| - 1][k] == items[k];
      var j := FindArn(m, items[k].arn).value;
      assert j in u.rows && u.rows[j].arn == items[k].arn;
    }
  }

  lemma SyncedStep<P>(t: Table<P>, m: Table<P>, account: AccountId, items: seq<Item<P>>, now: int, i: RowId)
    requires items != [] && Keyed(m) && Extends(t, m)
    requires forall j :: j in m.rows ==> Synced(t, m, account, items[..|items| - 1], now, j)
    requires i in Upsert(m, account, items[|items| - 1], now).rows
    ensures Synced(t, Upsert(m, account, items[|items| - 1], now), account, items, now, i)
  {
    var front, last := items[..|items| - 1], items[|items| - 1];
    var u := Upsert(m, account, last, now);
    MentionsStep(items, u.rows[i].arn);
    assert i in t.rows ==> i in m.rows;
    if u.rows[i].arn != last.arn {
      assert u.rows[i] == m.rows[i] && Synced(t, m, account, front, now, i);
    } else if i in m.rows {
      assert FindArn(m, last.arn) == Some(i);
      assert Synced(t, m, account, front, now, i);
    }
  }

  lemma MentionsStep<P>(items: seq<Item<P>>, arn: Arn)
    requires items != []
    ensures Mentions(items, arn) <==> items[|items| - 1].arn == arn || Mentions(items[..|items| - 1], arn)
  {
    var front := items[..|items| - 1];
    if Mentions(items, arn) && items[|items| - 1].arn != arn {
      var k :| 0 <= k < |items| && items[k].arn == arn;
      assert front[k].arn == arn;
    }
  }

  lemma SameFind<P>(t: Table<P>, u: Table<P>, arn: Arn)
    requires SameShape(t, u)
    ensures FindArn(t, arn) == FindArn(u, arn)
  {
    assert WithArn(t, arn) == WithArn(u, arn);
  }

  /** Which ids a sync gives out depends on the ARNs only. */
  lemma {:induction false} UpsertAllShape<P>(t: Table<P>, u: Table<P>, account: AccountId, items: seq<Item<P>>, m: int,
                                             n: int)
    requires SameShape(t, u)
    ensures SameShape(UpsertAll(t, account, items, m), UpsertAll(u, account, items, n))
  {
    if items != [] {
      UpsertAllShape(t, u, account, items[..|items| - 1], m, n);
      SameFind(UpsertAll(t, account, items[..|items| - 1], m), UpsertAll(u, account, items[..|items| - 1], n),
               items[|items| - 1].arn);
    }
  }

  /** When every listed ARN already has a row, nothing is inserted. */
  lemma {:induction false} NothingNew<P>(t: Table<P>, account: AccountId, items: seq<Item<P>>, now: int)
    requires AllFound(t, items)
    ensures SameShape(UpsertAll(t, account, items, now), t)
  {
    if items != [] {
      var front, last := items[..|items| - 1], items[|items| - 1];
      assert forall k :: 0 <= k < |front| ==> front[k] == items[k];
      NothingNew(t, account, front, now);
      SameFind(UpsertAll(t, account, front, now), t, last.arn);
      assert FindArn(t, items[|items| - 1].arn).Some?;
    }
  }

  lemma SyncedTwice<P>(t: Table<P>, u: Table<P>, v: Table<P>, w: Table<P>, account: AccountId, items: seq<Item<P>>,
                       first: int, second: int, i: RowId)
    requires i in u.rows && i in v.rows && i in w.rows && SameShape(u, v) && SameShape(w, u)
    requires Synced(t, u, account, items, first, i) && Synced(t, v, account, items, second, i)
             && Synced(u, w, account, items, second, i)
    ensures w.rows[i] == v.rows[i]
  {
  }

  /** Syncing the same items again is the same as having synced once, later. */
  lemma Resync<P>(t: Table<P>, account: AccountId, items: seq<Item<P>>, first: int, second: int)
    requires Keyed(t)
    ensures UpsertAll(UpsertAll(t, account, items, first), account, items, second) == UpsertAll(t, account, items,
        second)
  {
    var u, v := UpsertAll(t, account, items, first), UpsertAll(t, account, items, second);
    var w := UpsertAll(u, account, items, second);
    UpsertAllExact(t, account, items, first);
    UpsertAllExact(t, account, items, second);
    UpsertAllExact(u, account, items, second);
    UpsertAllShape(t, t, account, items, first, second);
    NothingNew(u, account, items, second);
    assert w.rows.Keys == v.rows.Keys;
    forall i | i in w.rows ensures w.rows[i] == v.rows[i] {
      SyncedTwice(t, u, v, w, account, items, first, second, i);
    }
    assert w.rows == v.rows;
  }
}
