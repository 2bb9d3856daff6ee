/** Exactly what the linter says about a document, and where it says it. */
module SchemaComplaints {
  import opened Wrappers
  import opened SchemaTree
  import opened SchemaPositions
  import opened SchemaLint

  // ----- where a position is said to be

  /** The printed place at the end of a path. */
  function PlaceAt(schema: Json, place: string, path: seq<Edge>): string {
    if path == [] then place
    else
      var g, i, kids := path[0].group, path[0].index, Kids(schema, path[0].group);
      if i < |kids| then PlaceAt(kids[i], KidLabel(schema, place, g, i), path[1..]) else ""
  }

  /** A visit made from `schema` prints the place of its path, and is at the top only if its path is
      empty. */
  predicate PlaceOk(v: Visit, schema: Json, place: string, top: bool) {
    match v
    case Node(path, here, _, _, t) => here == PlaceAt(schema, place, path) && t == (top && path == [])
    case BadGroup(path, here, g) =>
      At(schema, path).Some? && At(schema, path).value.JObj? &&
      here == BadLabel(At(schema, path).value.fields, PlaceAt(schema, place, path), g)
  }

  predicate PlacesOk(visits: seq<Visit>, schema: Json, place: string, top: bool) {
    forall v :: v in visits ==> PlaceOk(v, schema, place, top)
  }

  lemma {:induction false} LiftPlace(v: Visit, schema: Json, place: string, top: bool, e: Edge)
    requires e.index < |Kids(schema, e.group)|
    requires PlaceOk(v, Kids(schema, e.group)[e.index], KidLabel(schema, place, e.group, e.index), false)
    ensures PlaceOk(v.(path := [e] + v.path), schema, place, top)
  {
    assert ([e] + v.path)[1..] == v.path;
  }

  lemma {:induction false} WalkPlaces(schema: Json, place: string, flag: bool, top: bool)
    ensures PlacesOk(Walk(schema, place, flag, top), schema, place, top)
    decreases schema, 3, 0
  {
    if schema.JObj? { WalkGroupsPlaces(schema, place, flag, top, |GROUPS|); }
  }

  lemma {:induction false} WalkGroupsPlaces(schema: Json, place: string, flag: bool, top: bool, n: nat)
    requires schema.JObj? && n <= |GROUPS|
    ensures PlacesOk(WalkGroups(schema, place, flag, n), schema, place, top)
    decreases schema, 2, n
  {
    if n > 0 {
      WalkGroupsPlaces(schema, place, flag, top, n - 1);
      WalkGroupPlaces(schema, place, flag, top, GROUPS[n - 1]);
    }
  }

  lemma {:induction false} WalkGroupPlaces(schema: Json, place: string, flag: bool, top: bool, g: Group)
    requires schema.JObj?
    ensures PlacesOk(WalkGroup(schema, place, flag, g), schema, place, top)
    decreases schema, 2, 0
  {
    var walks := KidWalks(schema, place, flag, g);
    forall i | 0 <= i < |walks| ensures PlacesOk(walks[i], Kids(schema, g)[i], KidLabel(schema, place, g, i), false) {
      WalkPlaces(Kids(schema, g)[i], KidLabel(schema, place, g, i), ChildFlag(flag, g), false);
    }
    JoinedPlaces(schema, place, top, g, walks);
  }

  lemma {:induction false} JoinedPlaces(schema: Json, place: string, top: bool, g: Group, walks: seq<seq<Visit>>)
    requires |walks| <= |Kids(schema, g)|
    requires forall i :: 0 <= i < |walks| ==> PlacesOk(walks[i], Kids(schema, g)[i], KidLabel(schema, place, g, i), false)
    ensures PlacesOk(Joined(g, walks), schema, place, top)
    decreases |walks|
  {
    if walks != [] {
      var n := |walks| - 1;
      JoinedPlaces(schema, place, top, g, walks[..n]);
      forall v | v in Under(Edge(g, n), walks[n]) ensures PlaceOk(v, schema, place, top) {
        var i :| 0 <= i < |walks[n]| && v == walks[n][i].(path := [Edge(g, n)] + walks[n][i].path);
        assert walks[n][i] in walks[n];
        LiftPlace(walks[n][i], schema, place, top, Edge(g, n));
      }
    }
  }

  // ----- every position's own visits are made

  lemma {:induction false} InUnder(e: Edge, visits: seq<Visit>, v: Visit)
    requires v in visits
    ensures v.(path := [e] + v.path) in Under(e, visits)
  {
    var i :| 0 <= i < |visits| && visits[i] == v;
    assert Under(e, visits)[i] == v.(path := [e] + v.path);
  }

  lemma {:induction false} InJoined(g: Group, walks: seq<seq<Visit>>, i: nat, v: Visit)
    requires i < |walks| && v in walks[i]
    ensures v.(path := [Edge(g, i)] + v.path) in Joined(g, walks)
    decreases |walks|
  {
    var n := |walks| - 1;
    if i == n { InUnder(Edge(g, n), walks[n], v); } else { InJoined(g, walks[..n], i, v); }
  }

  lemma {:induction false} InGroups(schema: Json, place: string, flag: bool, n: nat, k: nat, v: Visit)
    requires schema.JObj? && k < n <= |GROUPS| && v in WalkGroup(schema, place, flag, GROUPS[k])
    ensures v in WalkGroups(schema, place, flag, n)
    decreases n
  {
    if k < n - 1 { InGroups(schema, place, flag, n - 1, k, v); }
  }

  lemma {:induction false} InWalk(schema: Json, place: string, flag: bool, top: bool, g: Group, v: Visit)
    requires schema.JObj? && v in WalkGroup(schema, place, flag, g)
    ensures v in Walk(schema, place, flag, top)
  {
    GroupNumber(GroupIndex(g), g);
    InGroups(schema, place, flag, |GROUPS|, GroupIndex(g), v);
  }

  lemma {:induction false} KidVisited(schema: Json, place: string, flag: bool, top: bool, g: Group, i: nat, v: Visit)
    requires i < |Kids(schema, g)|
    requires v in Walk(Kids(schema, g)[i], KidLabel(schema, place, g, i), ChildFlag(flag, g), false)
    ensures Below([Edge(g, i)], v) in Walk(schema, place, flag, top)
  {
    var walks := KidWalks(schema, place, flag, g);
    assert walks[i] == Walk(Kids(schema, g)[i], KidLabel(schema, place, g, i), ChildFlag(flag, g), false);
    InJoined(g, walks, i, v);
    InWalk(schema, place, flag, top, g, v.(path := [Edge(g, i)] + v.path));
  }

  /** The same visit, seen from `q` further up. */
  function Below(q: seq<Edge>, v: Visit): Visit {
    v.(path := q + v.path)
  }

  lemma {:induction false} StepDown(schema: Json, place: string, q: seq<Edge>)
    requires q != [] && At(schema, q).Some?
    ensures var g, i := q[0].group, q[0].index;
            && i < |Kids(schema, g)|
            && At(schema, q) == At(Kids(schema, g)[i], q[1..])
            && PlaceAt(schema, place, q) == PlaceAt(Kids(schema, g)[i], KidLabel(schema, place, g, i), q[1..])
            && (Strays(q) <==> g != Properties || Strays(q[1..]))
  {
    assert q == [q[0]] + q[1..];
    StraysStep(q[0], q[1..]);
  }

  lemma {:induction false} BelowBelow(e: Edge, rest: seq<Edge>, v: Visit)
    ensures Below([e], Below(rest, v)) == Below([e] + rest, v)
  {
    assert [e] + (rest + v.path) == ([e] + rest) + v.path;
  }

  lemma {:induction false} StepUp(schema: Json, place: string, flag: bool, top: bool, q: seq<Edge>, v: Visit)
    requires q != [] && q[0].index < |Kids(schema, q[0].group)|
    requires Below(q[1..], v) in Walk(Kids(schema, q[0].group)[q[0].index], KidLabel(schema, place, q[0].group, q[0].index),
                                      ChildFlag(flag, q[0].group), false)
    ensures Below(q, v) in Walk(schema, place, flag, top)
  {
    KidVisited(schema, place, flag, top, q[0].group, q[0].index, Below(q[1..], v));
    BelowBelow(q[0], q[1..], v);
    assert Edge(q[0].group, q[0].index) == q[0] && q == [q[0]] + q[1..];
  }

  /** What is visited from a position on its own is visited, at its place, from the document. */
  lemma {:induction false} PositionVisited(schema: Json, place: string, flag: bool, top: bool, q: seq<Edge>,
                                           node: Json, here: string, flagged: bool, v: Visit)
    requires At(schema, q) == Some(node) && here == PlaceAt(schema, place, q) && flagged == (flag || Strays(q))
    requires v in Walk(node, here, flagged, top && q == [])
    ensures Below(q, v) in Walk(schema, place, flag, top)
    decreases |q|
  {
    if q == [] {
      assert [] + v.path == v.path;
    } else {
      var g, i, rest := q[0].group, q[0].index, q[1..];
      StepDown(schema, place, q);
      PositionVisited(Kids(schema, g)[i], KidLabel(schema, place, g, i), ChildFlag(flag, g), false, rest, node, here, flagged, v);
      StepUp(schema, place, flag, top, q, v);
    }
  }

  lemma {:induction false} BelowFindings(q: seq<Edge>, v: Visit, lint: Linter)
    ensures FindingsAt(Below(q, v), lint) == FindingsAt(v, lint)
  {
  }

  // ----- what is found

  lemma {:induction false} InFindings(visits: seq<Visit>, lint: Linter, f: Finding)
    ensures f in Findings(visits, lint) <==> exists v :: v in visits && f in FindingsAt(v, lint)
  {
    if visits != [] {
      var rest, last := visits[..|visits| - 1], visits[|visits| - 1];
      assert visits == rest + [last];
      InFindings(rest, lint, f);
      assert forall v :: v in visits <==> v in rest || v == last;
    }
  }

  /** What is found at one position: its own findings, and a complaint for each malformed keyword. */
  predicate FoundAt(node: Json, here: string, flagged: bool, top: bool, lint: Linter, f: Finding) {
    match node
    case JBool(_) => false
    case JObj(fields) =>
      || f in lint(fields, here, top, flagged)
      || exists g: Group :: Malformed(fields, g) && f == Complaint(BadLabel(fields, here, g), WrongShape)
    case _ => f == Complaint(here, NotASchema)
  }

  /** The linter's errors are exactly the errors at the structural positions: each is found at some
      position, under its printed place and its flag, and what is to be found at a position is. */
  lemma {:induction false} FoundExactly(root: Json, place: string, flag: bool, lint: Linter, f: Finding)
    ensures f in Findings(Walk(root, place, flag, true), lint) <==>
            exists q :: At(root, q).Some? &&
              FoundAt(At(root, q).value, PlaceAt(root, place, q), flag || Strays(q), q == [], lint, f)
  {
    var visits := Walk(root, place, flag, true);
    InFindings(visits, lint, f);
    if v :| v in visits && f in FindingsAt(v, lint) { FoundByVisit(root, place, flag, lint, f, v); }
    if q :| At(root, q).Some? && FoundAt(At(root, q).value, PlaceAt(root, place, q), flag || Strays(q), q == [], lint, f) {
      FoundByPosition(root, place, flag, lint, f, q);
    }
  }

  lemma {:induction false} FoundByVisit(root: Json, place: string, flag: bool, lint: Linter, f: Finding, v: Visit)
    requires v in Walk(root, place, flag, true) && f in FindingsAt(v, lint)
    ensures At(root, v.path).Some?
    ensures FoundAt(At(root, v.path).value, PlaceAt(root, place, v.path), flag || Strays(v.path), v.path == [], lint, f)
  {
    WalkPlaces(root, place, flag, true);
    WalkOk(root, place, flag, true);
    assert PlaceOk(v, root, place, true);
    var i :| 0 <= i < |Walk(root, place, flag, true)| && Walk(root, place, flag, true)[i] == v;
    assert VisitOk(v, root, flag);
    if v.BadGroup? { assert Malformed(At(root, v.path).value.fields, v.group); }
  }

  lemma {:induction false} FoundByPosition(root: Json, place: string, flag: bool, lint: Linter, f: Finding, q: seq<Edge>)
    requires At(root, q).Some?
    requires FoundAt(At(root, q).value, PlaceAt(root, place, q), flag || Strays(q), q == [], lint, f)
    ensures exists v :: v in Walk(root, place, flag, true) && f in FindingsAt(v, lint)
  {
    var node, here, flagged := At(root, q).value, PlaceAt(root, place, q), flag || Strays(q);
    var own := Node([], here, node, flagged, q == []);
    if f in FindingsAt(own, lint) {
      PositionVisited(root, place, flag, true, q, node, here, flagged, own);
      BelowFindings(q, own, lint);
    } else {
      var g: Group :| Malformed(node.fields, g) && f == Complaint(BadLabel(node.fields, here, g), WrongShape);
      var bad := BadGroup([], BadLabel(node.fields, here, g), g);
      assert bad in WalkGroup(node, here, flagged, g);
      InWalk(node, here, flagged, q == [], g, bad);
      PositionVisited(root, place, flag, true, q, node, here, flagged, bad);
      BelowFindings(q, bad, lint);
    }
  }

  // ----- the two checks, message by message

  lemma {:induction false} InFlat(parts: seq<seq<Finding>>, f: Finding)
    ensures f in Flat(parts) <==> exists i :: 0 <= i < |parts| && f in parts[i]
  {
    if parts != [] {
      var n := |parts| - 1;
      InFlat(parts[..n], f);
      assert forall i :: 0 <= i < n ==> parts[..n][i] == parts[i];
    }
  }

  /** What is wrong with one property, in the words of each message. */
  predicate Faulty(fields: seq<Entry>, e: Entry, t: Text) {
    var required := Required(fields, e.key);
    match t
    case DefaultForRequired => required == Some(true) && HasDefault(e.value)
    case NoDefaultForOptional => required == Some(false) && e.value.JObj? && !HasDefault(e.value)
    case RequiredIsNullable => e.value != JBool(true) && required == Some(true) && Nullable(e.value) == Some(true)
    case OptionalNotNullable => e.value != JBool(true) && required == Some(false) && Nullable(e.value) == Some(false)
    case _ => false
  }

  /** The value makes a check raise. */
  predicate Unreadable(fields: seq<Entry>, e: Entry) {
    Required(fields, e.key).None? || (e.value != JBool(true) && Nullable(e.value).None?)
  }

  /** What the two checks find in one property, and where. */
  predicate EntryFault(fields: seq<Entry>, e: Entry, place: string, f: Finding) {
    match f
    case Complaint(p, t) => p == place + "." + e.key && Faulty(fields, e, t)
    case Raise => Unreadable(fields, e)
  }

  lemma {:induction false} PropertyFindings(fields: seq<Entry>, e: Entry, place: string, f: Finding)
    ensures f in DefaultFindings(fields, e, place) || f in NullFindings(fields, e, place) <==>
            EntryFault(fields, e, place, f)
  {
  }

  /** What the two checks find in one object. */
  predicate PropertyFault(fields: seq<Entry>, place: string, f: Finding) {
    match Get(fields, "properties")
    case None => false
    case Some(JObj(entries)) =>
      exists i :: 0 <= i < |entries| && EntryFault(fields, entries[i], place, f)
    case Some(_) => f == Raise
  }

  lemma {:induction false} CheckExactly(fields: seq<Entry>, place: string, top: bool, flag: bool, f: Finding)
    ensures f in CheckProperties(fields, place, top, flag) <==> !flag && PropertyFault(fields, place, f)
  {
    var p := Get(fields, "properties");
    if !flag && p.Some? && p.value.JObj? { EntriesExactly(fields, p.value.fields, place, f); }
  }

  lemma {:induction false} EntriesExactly(fields: seq<Entry>, entries: seq<Entry>, place: string, f: Finding)
    ensures f in Flat(DefaultParts(fields, entries, place)) + Flat(NullParts(fields, entries, place)) <==>
            exists i :: 0 <= i < |entries| && EntryFault(fields, entries[i], place, f)
  {
    var d, n := DefaultParts(fields, entries, place), NullParts(fields, entries, place);
    InFlat(d, f);
    InFlat(n, f);
    forall i | 0 <= i < |entries|
      ensures f in d[i] || f in n[i] <==> EntryFault(fields, entries[i], place, f)
    {
      PropertyFindings(fields, entries[i], place, f);
    }
  }

  /** The place and the message of every complaint about a document, and when the linter raises:
      exactly the faults at its structural positions. */
  lemma {:induction false} ComplaintsExactly(root: Json, place: string, flag: bool, f: Finding)
    ensures f in Findings(Walk(root, place, flag, true), CheckProperties) <==>
            exists q :: At(root, q).Some? && DocumentFault(At(root, q).value, PlaceAt(root, place, q), flag || Strays(q), f)
  {
    FoundExactly(root, place, flag, CheckProperties, f);
    forall q | At(root, q).Some?
      ensures FoundAt(At(root, q).value, PlaceAt(root, place, q), flag || Strays(q), q == [], CheckProperties, f) <==>
              DocumentFault(At(root, q).value, PlaceAt(root, place, q), flag || Strays(q), f)
    {
      var node := At(root, q).value;
      if node.JObj? { CheckExactly(node.fields, PlaceAt(root, place, q), q == [], flag || Strays(q), f); }
    }
  }

  predicate DocumentFault(node: Json, here: string, flagged: bool, f: Finding) {
    match node
    case JBool(_) => false
    case JObj(fields) =>
      || (!flagged && PropertyFault(fields, here, f))
      || exists g: Group :: Malformed(fields, g) && f == Complaint(BadLabel(fields, here, g), WrongShape)
    case _ => f == Complaint(here, NotASchema)
  }
}
