/** How often the Mermaid diagram declares an identifier: once each exactly when the underscored ids of what
    it declares are distinct. */
module MermaidIds {
  import opened Seqs
  import opened Inventory
  import opened ArchitectureModel
  import opened Mermaid

  /** The identifiers declared, in order, as often as they are declared. */
  function DeclaredIds(lines: seq<Line>): seq<string>
  {
    if lines == [] then []
    else
      var last := lines[|lines| - 1];
      DeclaredIds(lines[..|lines| - 1]) + if last.Declare? then [last.id] else []
  }

  function Prefixed(xs: seq<string>): (r: seq<string>)
    ensures |r| == |xs| && forall i :: 0 <= i < |xs| ==> r[i] == "node_" + xs[i]
  {
    if xs == [] then [] else Prefixed(xs[..|xs| - 1]) + ["node_" + xs[|xs| - 1]]
  }

  // ----- the underscored ids of what a model declares -----

  function Suffix(r: Resource): seq<string> { [Underscored(r.id)] }
  function SubnetSuffix(s: SubnetSummary): seq<string> { [Underscored(s.id)] }

  function BucketNames(b: Bucket): seq<string>
  {
    [Underscored(b.id) + "_ROOT"] + FlatMap(b.subnets, SubnetSuffix) + FlatMap(b.routeTables, Suffix)
      + FlatMap(b.securityGroups, Suffix)
    + FlatMap(b.loadBalancers, Suffix) + FlatMap(FlatMap(b.subnets, Ec2Of), Suffix)
      + FlatMap(b.databases + b.caches, Suffix)
    + FlatMap(b.containers, Suffix) + FlatMap(b.serverless, Suffix)
  }

  function GlobalNames(m: Model): GlobalKind -> seq<string> { (k: GlobalKind) => FlatMap(m.globals(k), Suffix) }

  /** Roots, subnets and resources, in the order of the diagram. */
  function Names(m: Model): seq<string> { FlatMap(BLOCK_ORDER, GlobalNames(m)) + FlatMap(m.vpcs, BucketNames) }

  // ----- lists of declarations -----

  lemma {:induction false} IdsConcat(a: seq<Line>, b: seq<Line>)
    ensures DeclaredIds(a + b) == DeclaredIds(a) + DeclaredIds(b)
  {
    if b == [] {
      assert a + b == a;
    } else {
      assert (a + b)[..|a + b| - 1] == a + b[..|b| - 1];
      IdsConcat(a, b[..|b| - 1]);
    }
  }

  lemma PrefixedConcat(a: seq<string>, b: seq<string>)
    ensures Prefixed(a + b) == Prefixed(a) + Prefixed(b)
  {
  }

  /** The lines declare these names. */
  ghost predicate Declares(lines: seq<Line>, names: seq<string>) { DeclaredIds(lines) == Prefixed(names) }

  lemma DeclaresConcat(a: seq<Line>, b: seq<Line>, xs: seq<string>, ys: seq<string>)
    requires Declares(a, xs) && Declares(b, ys)
    ensures Declares(a + b, xs + ys)
  {
    IdsConcat(a, b);
    PrefixedConcat(xs, ys);
  }

  lemma {:induction false} DeclaresMap<T>(s: seq<T>, f: T -> seq<Line>, g: T -> seq<string>)
    requires forall x :: Declares(f(x), g(x))
    ensures Declares(FlatMap(s, f), FlatMap(s, g))
  {
    if s != [] {
      DeclaresMap(s[..|s| - 1], f, g);
      DeclaresConcat(FlatMap(s[..|s| - 1], f), f(s[|s| - 1]), FlatMap(s[..|s| - 1], g), g(s[|s| - 1]));
    }
  }

  lemma {:induction false} Silent(lines: seq<Line>)
    requires forall l :: l in lines ==> !l.Declare?
    ensures Declares(lines, [])
  {
    if lines != [] { Silent(lines[..|lines| - 1]); }
  }

  lemma OneDeclared(id: string, name: string)
    requires id == "node_" + name
    ensures Declares([Declare(id)], [name])
  {
    assert [Declare(id)][..0] == [] && [name][..0] == [];
  }

  /** Lines that declare nothing, before and after. */
  lemma Framed(before: seq<Line>, lines: seq<Line>, after: seq<Line>, names: seq<string>)
    requires Declares(before, []) && Declares(lines, names) && Declares(after, [])
    ensures Declares(before + lines + after, names)
  {
    DeclaresConcat(before, lines, [], names);
    DeclaresConcat(before + lines, after, [] + names, []);
    assert [] + names + [] == names;
  }

  lemma BlockNames(id: string, lines: seq<Line>, names: seq<string>)
    requires Declares(lines, names)
    ensures Declares(Block(id, lines), names)
  {
    Silent([Open(id)]);
    Silent([Close]);
    Framed([Open(id)], lines, [Close], names);
  }

  lemma ResourceNames(id: string, rs: seq<Resource>)
    ensures Declares(ResourceBlock(id, rs), FlatMap(rs, Suffix))
  {
    hide Declares, Block, Underscored;
    forall r: Resource ensures Declares(DeclareOf(r), Suffix(r)) { OneDeclared(Mid(r.id), Underscored(r.id)); }
    DeclaresMap(rs, DeclareOf, Suffix);
    BlockNames(id, FlatMap(rs, DeclareOf), FlatMap(rs, Suffix));
  }

  lemma SubnetNames(id: string, ss: seq<SubnetSummary>)
    ensures Declares(Block(id, FlatMap(ss, DeclareSubnet)), FlatMap(ss, SubnetSuffix))
  {
    hide Declares, Block, Underscored;
    forall s: SubnetSummary ensures Declares(DeclareSubnet(s), SubnetSuffix(s)) {
      OneDeclared(Mid(s.id), Underscored(s.id));
    }
    DeclaresMap(ss, DeclareSubnet, SubnetSuffix);
    BlockNames(id, FlatMap(ss, DeclareSubnet), FlatMap(ss, SubnetSuffix));
  }

  lemma BucketDeclares(b: Bucket)
    ensures Declares(BucketLines(b), BucketNames(b))
  {
    hide Declares, FlatMap, Block, ResourceBlock, Underscored, BucketArrows;
    var v := Mid(b.id);
    Silent([Open(v)]);
    InnerDeclares(b);
    BucketBlockSplit(b);
    Silent([Close]);
    Silent([Blank]);
    Framed([Open(v)], BucketInner(b), [Close], BucketNames(b));
    DeclaresConcat([Open(v)] + BucketInner(b) + [Close], [Blank], BucketNames(b), []);
    BucketArrowsOnly(b);
    Silent(BucketArrows(b));
    assert BucketNames(b) + [] == BucketNames(b);
    DeclaresConcat(BucketBlock(b), BucketArrows(b), BucketNames(b), []);
  }

  lemma InnerDeclares(b: Bucket)
    ensures Declares(BucketInner(b), BucketNames(b))
  {
    hide Declares, FlatMap, Block, ResourceBlock, Underscored;
    var v := Mid(b.id);
    var r := Underscored(b.id) + "_ROOT";
    assert RootId(b.id) == "node_" + r;
    OneDeclared(RootId(b.id), r);
    SubnetNames(v + "_NETWORK", b.subnets);
    ResourceNames(v + "_RT", b.routeTables);
    ResourceNames(v + "_SG", b.securityGroups);
    ResourceNames(v + "_LB", b.loadBalancers);
    ResourceNames(v + "_COMPUTE", FlatMap(b.subnets, Ec2Of));
    ResourceNames(v + "_DATA", b.databases + b.caches);
    ResourceNames(v + "_CONTAINERS", b.containers);
    ResourceNames(v + "_SERVERLESS", b.serverless);
    var l1, n1 := [Declare(RootId(b.id))] + Block(v + "_NETWORK", FlatMap(b.subnets, DeclareSubnet)), [r]
                  + FlatMap(b.subnets, SubnetSuffix);
    var l2, n2 := l1 + ResourceBlock(v + "_RT", b.routeTables), n1 + FlatMap(b.routeTables, Suffix);
    var l3, n3 := l2 + ResourceBlock(v + "_SG", b.securityGroups), n2 + FlatMap(b.securityGroups, Suffix);
    var l4, n4 := l3 + ResourceBlock(v + "_LB", b.loadBalancers), n3 + FlatMap(b.loadBalancers, Suffix);
    var ec2 := FlatMap(b.subnets, Ec2Of);
    var l5, n5 := l4 + ResourceBlock(v + "_COMPUTE", ec2), n4 + FlatMap(ec2, Suffix);
    var l6, n6 := l5 + ResourceBlock(v + "_DATA", b.databases + b.caches), n5 + FlatMap(b.databases + b.caches, Suffix);
    var l7, n7 := l6 + ResourceBlock(v + "_CONTAINERS", b.containers), n6 + FlatMap(b.containers, Suffix);
    DeclaresConcat([Declare(RootId(b.id))], Block(v + "_NETWORK", FlatMap(b.subnets, DeclareSubnet)), [r],
                   FlatMap(b.subnets, SubnetSuffix));
    DeclaresConcat(l1, ResourceBlock(v + "_RT", b.routeTables), n1, FlatMap(b.routeTables, Suffix));
    DeclaresConcat(l2, ResourceBlock(v + "_SG", b.securityGroups), n2, FlatMap(b.securityGroups, Suffix));
    DeclaresConcat(l3, ResourceBlock(v + "_LB", b.loadBalancers), n3, FlatMap(b.loadBalancers, Suffix));
    DeclaresConcat(l4, ResourceBlock(v + "_COMPUTE", ec2), n4, FlatMap(ec2, Suffix));
    DeclaresConcat(l5, ResourceBlock(v + "_DATA", b.databases + b.caches), n5, FlatMap(b.databases + b.caches, Suffix));
    DeclaresConcat(l6, ResourceBlock(v + "_CONTAINERS", b.containers), n6, FlatMap(b.containers, Suffix));
    DeclaresConcat(l7, ResourceBlock(v + "_SERVERLESS", b.serverless), n7, FlatMap(b.serverless, Suffix));
  }

  lemma DiagramNames(m: Model)
    ensures Declares(Diagram(m), Names(m))
  {
    hide Declares, FlatMap, BucketLines, CrossArrows, ResourceBlock;
    forall k: GlobalKind ensures Declares(GlobalBlock(m)(k), GlobalNames(m)(k)) {
      ResourceNames(BlockName(k), m.globals(k));
    }
    DeclaresMap(BLOCK_ORDER, GlobalBlock(m), GlobalNames(m));
    var names := FlatMap(BLOCK_ORDER, GlobalNames(m));
    Silent([Open("GLOBAL")]);
    Silent([Close, Blank]);
    Framed([Open("GLOBAL")], FlatMap(BLOCK_ORDER, GlobalBlock(m)), [Close, Blank], names);
    Silent([Header, Header, Blank]);
    DeclaresConcat([Header, Header, Blank], GlobalLines(m), [], names);
    assert [] + names == names;
    forall b: Bucket ensures Declares(BucketLines(b), BucketNames(b)) { BucketDeclares(b); }
    DeclaresMap(m.vpcs, BucketLines, BucketNames);
    DeclaresConcat([Header, Header, Blank] + GlobalLines(m), FlatMap(m.vpcs, BucketLines), names,
                   FlatMap(m.vpcs, BucketNames));
    CrossArrowsOnly(m);
    Silent(CrossArrows(m));
    DeclaresConcat([Header, Header, Blank] + GlobalLines(m) + FlatMap(m.vpcs, BucketLines), CrossArrows(m), Names(m),
                   []);
    assert Names(m) + [] == Names(m);
  }

  function Itself(s: string): string { s }

  /** No identifier is declared twice exactly when the underscored ids of roots, subnets and resources are distinct. */
  lemma DeclaredOnceIff(m: Model)
    ensures UniqueBy(DeclaredIds(Diagram(m)), Itself) <==> UniqueBy(Names(m), Itself)
  {
    hide Diagram, Names;
    DiagramNames(m);
    var ids, names := DeclaredIds(Diagram(m)), Names(m);
    forall i, j | 0 <= i < j < |names| ensures ids[i] == ids[j] <==> names[i] == names[j] {
      assert names[i] == ids[i][5..] && names[j] == ids[j][5..];
    }
  }

  lemma UnderscoredCollision()
    ensures Mid("a-b") == Mid("a_b")
  {
    assert "a-b"[..2] == "a-" && "a_b"[..2] == "a_" && "a-"[..1] == "a" == "a_"[..1];
  }

  /** Underscoring can merge ids, though not ids without '_', as UUIDs are. */
  lemma {:induction false} UnderscoredInjective(a: string, b: string)
    requires '_' !in a && '_' !in b && Underscored(a) == Underscored(b)
    ensures a == b
  {
    UnderscoredSize(a);
    UnderscoredSize(b);
    if a != "" {
      var c, d, n := a[..|a| - 1], b[..|b| - 1], |a| - 1;
      assert a == c + [a[n]] && b == d + [b[n]];
      assert a[n] in a && b[n] in b;
      UnderscoredSize(c);
      UnderscoredSize(d);
      assert Underscored(a)[..n] == Underscored(c) && Underscored(b)[..n] == Underscored(d);
      assert Underscored(a)[n] == Underscored(b)[n];
      UnderscoredInjective(c, d);
    }
  }

  lemma {:induction false} UnderscoredSize(a: string)
    ensures |Underscored(a)| == |a|
  {
    if a != "" { UnderscoredSize(a[..|a| - 1]); }
  }

  // ----- in terms of the ids themselves -----

  function IdOf(r: Resource): seq<string> { [r.id] }
  function SubnetIdOf(s: SubnetSummary): seq<string> { [s.id] }

  function BucketIdList(b: Bucket): seq<string>
  {
    [b.id + "-ROOT"] + FlatMap(b.subnets, SubnetIdOf) + FlatMap(b.routeTables, IdOf) + FlatMap(b.securityGroups, IdOf)
    + FlatMap(b.loadBalancers, IdOf) + FlatMap(FlatMap(b.subnets, Ec2Of), IdOf) + FlatMap(b.databases + b.caches, IdOf)
    + FlatMap(b.containers, IdOf) + FlatMap(b.serverless, IdOf)
  }

  function GlobalIdList(m: Model): GlobalKind -> seq<string> { (k: GlobalKind) => FlatMap(m.globals(k), IdOf) }

  /** The ids of the model's subnets and resources, and for each bucket its id marked as a root. */
  function ModelIds(m: Model): seq<string> { FlatMap(BLOCK_ORDER, GlobalIdList(m)) + FlatMap(m.vpcs, BucketIdList) }

  function UnderscoredAll(xs: seq<string>): (r: seq<string>)
    ensures |r| == |xs| && forall i :: 0 <= i < |xs| ==> r[i] == Underscored(xs[i])
  {
    if xs == [] then [] else UnderscoredAll(xs[..|xs| - 1]) + [Underscored(xs[|xs| - 1])]
  }

  lemma AllConcat(a: seq<string>, b: seq<string>)
    ensures UnderscoredAll(a + b) == UnderscoredAll(a) + UnderscoredAll(b)
  {
  }

  lemma {:induction false} AllMap<T>(s: seq<T>, f: T -> seq<string>, g: T -> seq<string>)
    requires forall x :: g(x) == UnderscoredAll(f(x))
    ensures FlatMap(s, g) == UnderscoredAll(FlatMap(s, f))
  {
    if s != [] {
      AllMap(s[..|s| - 1], f, g);
      AllConcat(FlatMap(s[..|s| - 1], f), f(s[|s| - 1]));
    }
  }

  lemma RootName(id: string)
    ensures Underscored(id + "-ROOT") == Underscored(id) + "_ROOT"
  {
    hide Underscored;
  }

  lemma ResourceListNames(rs: seq<Resource>)
    ensures FlatMap(rs, Suffix) == UnderscoredAll(FlatMap(rs, IdOf))
  {
    hide Underscored;
    AllMap(rs, IdOf, Suffix);
  }

  lemma BucketNamesFromIds(b: Bucket)
    ensures BucketNames(b) == UnderscoredAll(BucketIdList(b))
  {
    hide Underscored, FlatMap, UnderscoredAll;
    var ec2 := FlatMap(b.subnets, Ec2Of);
    RootName(b.id);
    SubnetListNames(b.subnets);
    ResourceListNames(b.routeTables);
    ResourceListNames(b.securityGroups);
    ResourceListNames(b.loadBalancers);
    ResourceListNames(ec2);
    ResourceListNames(b.databases + b.caches);
    ResourceListNames(b.containers);
    ResourceListNames(b.serverless);
    var r := [b.id + "-ROOT"];
    OneName(b.id + "-ROOT");
    var i1 := r + FlatMap(b.subnets, SubnetIdOf);
    var i2 := i1 + FlatMap(b.routeTables, IdOf);
    var i3 := i2 + FlatMap(b.securityGroups, IdOf);
    var i4 := i3 + FlatMap(b.loadBalancers, IdOf);
    var i5 := i4 + FlatMap(ec2, IdOf);
    var i6 := i5 + FlatMap(b.databases + b.caches, IdOf);
    var i7 := i6 + FlatMap(b.containers, IdOf);
    AllConcat(r, FlatMap(b.subnets, SubnetIdOf));
    AllConcat(i1, FlatMap(b.routeTables, IdOf));
    AllConcat(i2, FlatMap(b.securityGroups, IdOf));
    AllConcat(i3, FlatMap(b.loadBalancers, IdOf));
    AllConcat(i4, FlatMap(ec2, IdOf));
    AllConcat(i5, FlatMap(b.databases + b.caches, IdOf));
    AllConcat(i6, FlatMap(b.containers, IdOf));
    AllConcat(i7, FlatMap(b.serverless, IdOf));
  }

  lemma SubnetListNames(ss: seq<SubnetSummary>)
    ensures FlatMap(ss, SubnetSuffix) == UnderscoredAll(FlatMap(ss, SubnetIdOf))
  {
    hide Underscored;
    AllMap(ss, SubnetIdOf, SubnetSuffix);
  }

  lemma OneName(id: string)
    ensures UnderscoredAll([id]) == [Underscored(id)]
  {
  }

  lemma NamesFromIds(m: Model)
    ensures Names(m) == UnderscoredAll(ModelIds(m))
  {
    hide FlatMap, UnderscoredAll, BucketNames, BucketIdList;
    forall k: GlobalKind ensures GlobalNames(m)(k) == UnderscoredAll(GlobalIdList(m)(k)) {
      ResourceListNames(m.globals(k));
    }
    AllMap(BLOCK_ORDER, GlobalIdList(m), GlobalNames(m));
    forall b: Bucket ensures BucketNames(b) == UnderscoredAll(BucketIdList(b)) { BucketNamesFromIds(b); }
    AllMap(m.vpcs, BucketIdList, BucketNames);
    AllConcat(FlatMap(BLOCK_ORDER, GlobalIdList(m)), FlatMap(m.vpcs, BucketIdList));
  }

  /** For ids without '_', no identifier is declared twice exactly when no id stands twice in the model and none is
      another bucket's id followed by "-ROOT". */
  lemma DistinctIdsDeclaredOnce(m: Model)
    requires forall id :: id in ModelIds(m) ==> '_' !in id
    ensures UniqueBy(DeclaredIds(Diagram(m)), Itself) <==> UniqueBy(ModelIds(m), Itself)
  {
    hide Diagram, Names, ModelIds, Underscored;
    DeclaredOnceIff(m);
    NamesFromIds(m);
    var ids, names := ModelIds(m), Names(m);
    forall i, j | 0 <= i < j < |ids| ensures names[i] == names[j] <==> ids[i] == ids[j] {
      assert ids[i] in ids && ids[j] in ids;
      if names[i] == names[j] { UnderscoredInjective(ids[i], ids[j]); }
    }
  }
}
