/** What the graph's lookups answer: a map built from a table keeps the last row of a key, a search finds the first. */
module Lookups {
  import opened Seqs
  import opened Inventory
  import opened ArchitectureModel
  import opened GraphCompiler

  ghost predicate LastAt<T>(rows: seq<T>, p: T -> bool, x: T, i: int)
  {
    0 <= i < |rows| && rows[i] == x && p(x) && forall y :: y in rows[i + 1..] ==> !p(y)
  }

  ghost predicate FirstAt<T>(rows: seq<T>, p: T -> bool, x: T, i: int)
  {
    0 <= i < |rows| && rows[i] == x && p(x) && forall y :: y in rows[..i] ==> !p(y)
  }

  /** x is the last row with the property. */
  ghost predicate IsLast<T>(rows: seq<T>, p: T -> bool, x: T) { exists i :: LastAt(rows, p, x, i) }

  ghost predicate IsFirst<T>(rows: seq<T>, p: T -> bool, x: T) { exists i :: FirstAt(rows, p, x, i) }

  lemma LastMore<T>(front: seq<T>, last: T, p: T -> bool, x: T, i: int)
    ensures p(last) ==> (LastAt(front + [last], p, x, i) <==> i == |front| && x == last)
    ensures !p(last) ==> (LastAt(front + [last], p, x, i) <==> LastAt(front, p, x, i))
  {
    var rows := front + [last];
    if 0 <= i < |front| {
      assert rows[i + 1..] == front[i + 1..] + [last];
      assert last in rows[i + 1..];
    } else if i == |front| {
      assert rows[i + 1..] == [];
    }
  }

  lemma {:induction false} FindLastIs<T>(rows: seq<T>, p: T -> bool, x: T)
    ensures FindLast(rows, p) == Some(x) <==> IsLast(rows, p, x)
  {
    if rows != [] {
      var front, last := rows[..|rows| - 1], rows[|rows| - 1];
      assert rows == front + [last];
      FindLastIs(front, p, x);
      forall i { LastMore(front, last, p, x, i); }
      hide LastAt;
      if i :| LastAt(front, p, x, i) { assert !p(last) ==> LastAt(rows, p, x, i); }
      if p(last) && x == last { assert LastAt(rows, p, x, |front|); }
    }
  }

  lemma FirstMore<T>(first: T, rest: seq<T>, p: T -> bool, x: T, i: int)
    ensures p(first) ==> (FirstAt([first] + rest, p, x, i) <==> i == 0 && x == first)
    ensures !p(first) ==> (FirstAt([first] + rest, p, x, i) <==> FirstAt(rest, p, x, i - 1))
  {
    var rows := [first] + rest;
    if 0 < i < |rows| {
      assert rows[..i] == [first] + rest[..i - 1] && rows[i] == rest[i - 1];
      assert first in rows[..i];
    } else if i == 0 {
      assert rows[..i] == [];
    }
  }

  lemma {:induction false} FindFirstIs<T>(rows: seq<T>, p: T -> bool, x: T)
    ensures FindFirst(rows, p) == Some(x) <==> IsFirst(rows, p, x)
  {
    if rows != [] {
      var first, rest := rows[0], rows[1..];
      assert rows == [first] + rest;
      FindFirstIs(rest, p, x);
      forall i { FirstMore(first, rest, p, x, i); }
      hide FirstAt;
      if i :| FirstAt(rest, p, x, i) { assert !p(first) ==> FirstAt(rows, p, x, i + 1); }
      if p(first) && x == first { assert FirstAt(rows, p, x, 0); }
    }
  }

  // ----- subnets -----

  lemma SubnetByIdIs(d: Data, id: string, s: Subnet)
    ensures SubnetById(d, id) == Some(s) <==> IsLast(d.subnets, (x: Subnet) => x.id == id, s)
  {
    FindLastIs(d.subnets, (x: Subnet) => x.id == id, s);
  }

  lemma SubnetByAwsIdIs(d: Data, awsId: string, s: Subnet)
    ensures SubnetByAwsId(d, awsId) == Some(s) <==> IsLast(d.subnets, (x: Subnet) => x.awsSubnetId == awsId, s)
  {
    FindLastIs(d.subnets, (x: Subnet) => x.awsSubnetId == awsId, s);
  }

  /** With unique ids, the subnet of an association is the one with that AWS id or, when there is none, the one with
      that id. */
  lemma AssociatedSubnetIs(d: Data, id: string, s: Subnet)
    requires UniqueBy(d.subnets, IdOfSubnet)
    requires forall x, y :: x in d.subnets && y in d.subnets && x.awsSubnetId == y.awsSubnetId ==> x == y
    ensures AssociatedSubnet(d, id) == Some(s) <==>
            s in d.subnets && (s.awsSubnetId == id
                               || (s.id == id && forall x :: x in d.subnets ==> x.awsSubnetId != id))
  {
    forall x, y | x in d.subnets && y in d.subnets && x.id == y.id ensures x == y {
      UniqueRow(d.subnets, IdOfSubnet, x, y);
    }
  }

  /** The VPC that owns a subnet, with unique ids. */
  lemma SubnetOwnerIs(d: Data, id: string, vpc: string)
    requires UniqueBy(d.subnets, IdOfSubnet)
    ensures SubnetOwner(d, id) == Some(vpc) <==> exists s :: s in d.subnets && s.id == id && s.vpcId == vpc
  {
    forall x, y | x in d.subnets && y in d.subnets && x.id == y.id ensures x == y {
      UniqueRow(d.subnets, IdOfSubnet, x, y);
    }
  }

  // ----- load balancers -----

  /** A service's reference means the last load balancer with the ARN it gives or, when it gives none or an unknown
      one, the first with the name it gives. */
  lemma ResolveLbIs(d: Data, r: LbRef, lb: LoadBalancer)
    ensures var arn, name := if r.arn.Some? then r.arn.value else "", if r.name.Some? then r.name.value else "";
            var known := arn != "" && exists x :: x in d.loadBalancers && x.arn == arn;
            ResolveLb(d, r) == Some(lb) <==>
            if known then IsLast(d.loadBalancers, (x: LoadBalancer) => x.arn == r.arn.value, lb)
            else name != "" && IsFirst(d.loadBalancers, (x: LoadBalancer) => x.name == r.name.value, lb)
  {
    hide IsLast, IsFirst;
    if r.arn.Some? { FindLastIs(d.loadBalancers, (x: LoadBalancer) => x.arn == r.arn.value, lb); }
    if r.name.Some? { FindFirstIs(d.loadBalancers, (x: LoadBalancer) => x.name == r.name.value, lb); }
  }
}
