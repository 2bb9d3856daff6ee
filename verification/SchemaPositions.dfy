/** The schema linter's traversal reaches every structural position exactly once, with the right
    in-checks flag. */
module SchemaPositions {
  import opened Wrappers
  import opened SchemaTree

  /** How often a position occurs in a list of visits. */
  function Count(visits: seq<Visit>, q: seq<Edge>): nat {
    if visits == [] then 0
    else
      var last := visits[|visits| - 1];
      Count(visits[..|visits| - 1], q) + (if last.Node? && last.path == q then 1 else 0)
  }

  lemma {:induction false} CountConcat(a: seq<Visit>, b: seq<Visit>, q: seq<Edge>)
    ensures Count(a + b, q) == Count(a, q) + Count(b, q)
  {
    if b == [] {
      assert a + b == a;
    } else {
      assert (a + b)[..|a + b| - 1] == a + b[..|b| - 1];
      CountConcat(a, b[..|b| - 1], q);
    }
  }

  lemma {:induction false} CountUnder(e: Edge, visits: seq<Visit>, q: seq<Edge>)
    ensures Count(Under(e, visits), q) == if q != [] && q[0] == e then Count(visits, q[1..]) else 0
  {
    if visits != [] {
      var n := |visits| - 1;
      CountUnder(e, visits[..n], q);
      assert Under(e, visits)[..n] == Under(e, visits[..n]);
      assert [e] + visits[n].path == q <==> q != [] && q[0] == e && visits[n].path == q[1..];
    }
  }

  lemma {:induction false} CountOne(v: Visit, q: seq<Edge>)
    ensures Count([v], q) == if v.Node? && v.path == q then 1 else 0
  {
    assert [v][..0] == [];
  }

  lemma {:induction false} WalkCount(schema: Json, place: string, flag: bool, top: bool, q: seq<Edge>)
    ensures Count(Walk(schema, place, flag, top), q) == if At(schema, q).Some? then 1 else 0
    decreases schema, 3, 0
  {
    var root := Node([], place, schema, flag, top);
    CountOne(root, q);
    if schema.JObj? {
      WalkGroupsCount(schema, place, flag, |GROUPS|, q);
      CountConcat([root], WalkGroups(schema, place, flag, |GROUPS|), q);
    } else {
      assert [root] + [] == [root];
    }
  }

  function GroupIndex(g: Group): (i: nat)
    ensures i < |GROUPS|
  {
    match g
    case Properties => 0
    case Checks => 1
    case OneOf => 2
    case AnyOf => 3
    case AllOf => 4
    case Items => 5
    case Additional => 6
    case Not => 7
    case Union => 8
  }

  lemma {:induction false} GroupNumber(n: nat, g: Group)
    requires n < |GROUPS|
    ensures GroupIndex(g) == n <==> g == GROUPS[n]
  {
  }

  lemma {:induction false} WalkGroupsCount(schema: Json, place: string, flag: bool, n: nat, q: seq<Edge>)
    requires schema.JObj? && n <= |GROUPS|
    ensures Count(WalkGroups(schema, place, flag, n), q) ==
            if q != [] && GroupIndex(q[0].group) < n && At(schema, q).Some? then 1 else 0
    decreases schema, 2, n
  {
    if n > 0 {
      WalkGroupsCount(schema, place, flag, n - 1, q);
      WalkGroupCount(schema, place, flag, GROUPS[n - 1], q);
      GroupsCountStep(schema, place, flag, n, GROUPS[n - 1], q);
      if q != [] { GroupNumber(n - 1, q[0].group); }
    }
  }

  lemma {:induction false} GroupsCountStep(schema: Json, place: string, flag: bool, n: nat, g: Group, q: seq<Edge>)
    requires schema.JObj? && 0 < n <= |GROUPS| && g == GROUPS[n - 1]
    ensures Count(WalkGroups(schema, place, flag, n), q) ==
            Count(WalkGroups(schema, place, flag, n - 1), q) + Count(WalkGroup(schema, place, flag, g), q)
  {
    CountConcat(WalkGroups(schema, place, flag, n - 1), WalkGroup(schema, place, flag, g), q);
  }

  lemma {:induction false} WalkGroupCount(schema: Json, place: string, flag: bool, g: Group, q: seq<Edge>)
    requires schema.JObj?
    ensures Count(WalkGroup(schema, place, flag, g), q) ==
            if q != [] && q[0].group == g && At(schema, q).Some? then 1 else 0
    decreases schema, 2, 0
  {
    if Malformed(schema.fields, g) {
      CountOne(BadGroup([], BadLabel(schema.fields, place, g), g), q);
    } else {
      var walks := KidWalks(schema, place, flag, g);
      JoinedCount(g, walks, q);
      if q != [] && q[0].group == g && q[0].index < |walks| {
        WalkCount(Kids(schema, g)[q[0].index], KidLabel(schema, place, g, q[0].index), ChildFlag(flag, g), false, q[1..]);
      }
    }
  }

  /** Of a group's children, only the one a position starts with can lead to it. */
  lemma {:induction false} JoinedCount(g: Group, walks: seq<seq<Visit>>, q: seq<Edge>)
    ensures Count(Joined(g, walks), q) ==
            if q != [] && q[0].group == g && q[0].index < |walks| then Count(walks[q[0].index], q[1..]) else 0
  {
    if walks != [] {
      var n := |walks| - 1;
      JoinedCount(g, walks[..n], q);
      CountUnder(Edge(g, n), walks[n], q);
      CountConcat(Joined(g, walks[..n]), Under(Edge(g, n), walks[n]), q);
    }
  }

  /** The traversal of a document visits every structural position exactly once and nothing else. */
  lemma {:induction false} EveryPositionOnce(root: Json, place: string, flag: bool, q: seq<Edge>)
    ensures Count(Walk(root, place, flag, true), q) == if At(root, q).Some? then 1 else 0
  {
    WalkCount(root, place, flag, true, q);
  }

  // ----- what a visit carries

  /** A visit made from `schema`, whose flag is `flag`, carries the schema found at its path and is
      flagged exactly when `flag` is set or the path uses some edge other than `properties`. */
  predicate VisitOk(v: Visit, schema: Json, flag: bool) {
    match v
    case Node(path, _, node, f, _) => At(schema, path) == Some(node) && f == (flag || Strays(path))
    case BadGroup(path, _, g) =>
      At(schema, path).Some? && At(schema, path).value.JObj? && Malformed(At(schema, path).value.fields, g)
  }

  predicate AllOk(visits: seq<Visit>, schema: Json, flag: bool) {
    forall i :: 0 <= i < |visits| ==> VisitOk(visits[i], schema, flag)
  }

  lemma {:induction false} StraysStep(e: Edge, path: seq<Edge>)
    ensures Strays([e] + path) <==> e.group != Properties || Strays(path)
  {
    var more := [e] + path;
    if Strays(path) {
      var i :| 0 <= i < |path| && path[i].group != Properties;
      assert more[i + 1].group != Properties;
    }
    if e.group != Properties { assert more[0].group != Properties; }
    if Strays(more) && e.group == Properties {
      var i :| 0 <= i < |more| && more[i].group != Properties;
      assert path[i - 1].group != Properties;
    }
  }

  lemma {:induction false} Lift(v: Visit, schema: Json, flag: bool, e: Edge)
    requires e.index < |Kids(schema, e.group)|
    requires VisitOk(v, Kids(schema, e.group)[e.index], ChildFlag(flag, e.group))
    ensures VisitOk(v.(path := [e] + v.path), schema, flag)
  {
    StraysStep(e, v.path);
    assert ([e] + v.path)[1..] == v.path;
  }

  lemma {:induction false} WalkOk(schema: Json, place: string, flag: bool, top: bool)
    ensures AllOk(Walk(schema, place, flag, top), schema, flag)
    decreases schema, 3, 0
  {
    if schema.JObj? { WalkGroupsOk(schema, place, flag, |GROUPS|); }
  }

  lemma {:induction false} WalkGroupsOk(schema: Json, place: string, flag: bool, n: nat)
    requires schema.JObj? && n <= |GROUPS|
    ensures AllOk(WalkGroups(schema, place, flag, n), schema, flag)
    decreases schema, 2, n
  {
    if n > 0 {
      WalkGroupsOk(schema, place, flag, n - 1);
      WalkGroupOk(schema, place, flag, GROUPS[n - 1]);
    }
  }

  lemma {:induction false} WalkGroupOk(schema: Json, place: string, flag: bool, g: Group)
    requires schema.JObj?
    ensures AllOk(WalkGroup(schema, place, flag, g), schema, flag)
    decreases schema, 2, 0
  {
    var walks := KidWalks(schema, place, flag, g);
    forall i | 0 <= i < |walks| ensures AllOk(walks[i], Kids(schema, g)[i], ChildFlag(flag, g)) {
      WalkOk(Kids(schema, g)[i], KidLabel(schema, place, g, i), ChildFlag(flag, g), false);
    }
    JoinedOk(schema, flag, g, walks);
  }

  lemma {:induction false} JoinedOk(schema: Json, flag: bool, g: Group, walks: seq<seq<Visit>>)
    requires |walks| <= |Kids(schema, g)|
    requires forall i :: 0 <= i < |walks| ==> AllOk(walks[i], Kids(schema, g)[i], ChildFlag(flag, g))
    ensures AllOk(Joined(g, walks), schema, flag)
    decreases |walks|
  {
    if walks != [] {
      var n := |walks| - 1;
      JoinedOk(schema, flag, g, walks[..n]);
      forall i | 0 <= i < |walks[n]| ensures VisitOk(Under(Edge(g, n), walks[n])[i], schema, flag) {
        Lift(walks[n][i], schema, flag, Edge(g, n));
      }
    }
  }

  /** Each visit of a document carries the schema found at its path, flagged exactly when the
      document is flagged or the path leaves `properties`. */
  lemma {:induction false} FlagsAreRight(root: Json, place: string, flag: bool, i: nat)
    requires i < |Walk(root, place, flag, true)|
    ensures VisitOk(Walk(root, place, flag, true)[i], root, flag)
  {
    WalkOk(root, place, flag, true);
  }
}
