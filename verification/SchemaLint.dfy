/** The linter itself: the recursive methods that collect errors, and what a clean result of the
    default and nullability checks means for the whole document. */
module SchemaLint {
  import opened Wrappers
  import opened SchemaTree
  import opened SchemaPositions

  /** The messages of the traversal and of the two checks. */
  datatype Text =
    | NotASchema | WrongShape | DefaultForRequired | NoDefaultForOptional | RequiredIsNullable | OptionalNotNullable

  /** A complaint at a place, or an exception that ends the run. */
  datatype Finding = Complaint(place: string, text: Text) | Raise

  /** A linter looks at one object: its fields, its place, whether it is the document itself, and
      its in-checks flag. */
  type Linter = (seq<Entry>, string, bool, bool) -> seq<Finding>

  function FindingsAt(v: Visit, lint: Linter): seq<Finding> {
    match v
    case Node(_, place, schema, flag, top) =>
      (match schema
       case JObj(fields) => lint(fields, place, top, flag)
       case JBool(_) => []
       case _ => [Complaint(place, NotASchema)])
    case BadGroup(_, place, _) => [Complaint(place, WrongShape)]
  }

  function Findings(visits: seq<Visit>, lint: Linter): seq<Finding> {
    if visits == [] then []
    else Findings(visits[..|visits| - 1], lint) + FindingsAt(visits[|visits| - 1], lint)
  }

  /** The errors collected, unless an exception ended the run. */
  function Outcome(fs: seq<Finding>): Option<seq<Finding>> {
    if Raise in fs then None else Some(fs)
  }

  lemma {:induction false} FindingsConcat(a: seq<Visit>, b: seq<Visit>, lint: Linter)
    ensures Findings(a + b, lint) == Findings(a, lint) + Findings(b, lint)
  {
    if b == [] {
      assert a + b == a;
    } else {
      var rest, last := b[..|b| - 1], b[|b| - 1];
      FindingsConcat(a, rest, lint);
      assert (a + b)[..|a + b| - 1] == a + rest && (a + b)[|a + b| - 1] == last;
      var fa, fr, fl := Findings(a, lint), Findings(rest, lint), FindingsAt(last, lint);
      assert Findings(a + b, lint) == (fa + fr) + fl == fa + (fr + fl);
    }
  }

  lemma {:induction false} FindingsOne(v: Visit, lint: Linter)
    ensures Findings([v], lint) == FindingsAt(v, lint)
  {
    assert [v][..0] == [];
  }

  /** What is found does not depend on where the path starts. */
  lemma {:induction false} FindingsUnder(e: Edge, visits: seq<Visit>, lint: Linter)
    ensures Findings(Under(e, visits), lint) == Findings(visits, lint)
  {
    if visits != [] {
      var n := |visits| - 1;
      assert Under(e, visits)[..n] == Under(e, visits[..n]);
      FindingsUnder(e, visits[..n], lint);
      assert FindingsAt(Under(e, visits)[n], lint) == FindingsAt(visits[n], lint);
    }
  }

  // ----- lists of lists

  function Flat(parts: seq<seq<Finding>>): seq<Finding> {
    if parts == [] then [] else Flat(parts[..|parts| - 1]) + parts[|parts| - 1]
  }

  lemma {:induction false} FlatNext(parts: seq<seq<Finding>>, i: nat)
    requires i < |parts|
    ensures Flat(parts[..i + 1]) == Flat(parts[..i]) + parts[i]
  {
    assert parts[..i + 1][..i] == parts[..i];
  }

  lemma {:induction false} FlatRaise(parts: seq<seq<Finding>>, i: nat)
    requires i < |parts| && Raise in parts[i]
    ensures Raise in Flat(parts)
  {
    if i < |parts| - 1 { FlatRaise(parts[..|parts| - 1], i); }
  }

  function WalkFindings(walks: seq<seq<Visit>>, lint: Linter): (parts: seq<seq<Finding>>)
    ensures |parts| == |walks|
  {
    seq(|walks|, i requires 0 <= i < |walks| => Findings(walks[i], lint))
  }

  lemma {:induction false} JoinedFindings(g: Group, walks: seq<seq<Visit>>, lint: Linter)
    ensures Findings(Joined(g, walks), lint) == Flat(WalkFindings(walks, lint))
  {
    if walks != [] {
      var n := |walks| - 1;
      JoinedFindings(g, walks[..n], lint);
      FindingsConcat(Joined(g, walks[..n]), Under(Edge(g, n), walks[n]), lint);
      FindingsUnder(Edge(g, n), walks[n], lint);
      assert WalkFindings(walks, lint)[..n] == WalkFindings(walks[..n], lint);
    }
  }

  /** The walks of a schema's groups, one by one. */
  function GroupWalks(schema: Json, place: string, flag: bool, n: nat): (walks: seq<seq<Visit>>)
    requires schema.JObj? && n <= |GROUPS|
    ensures |walks| == n
  {
    seq(n, i requires 0 <= i < n => WalkGroup(schema, place, flag, GROUPS[i]))
  }

  lemma {:induction false} GroupPartsNext(schema: Json, place: string, flag: bool, n: nat, lint: Linter)
    requires schema.JObj? && 0 < n <= |GROUPS|
    ensures Flat(WalkFindings(GroupWalks(schema, place, flag, n), lint)) ==
            Flat(WalkFindings(GroupWalks(schema, place, flag, n - 1), lint)) +
            Findings(WalkGroup(schema, place, flag, GROUPS[n - 1]), lint)
  {
    var parts := WalkFindings(GroupWalks(schema, place, flag, n), lint);
    assert parts[..n - 1] == WalkFindings(GroupWalks(schema, place, flag, n - 1), lint);
  }

  lemma {:induction false} GroupsFindings(schema: Json, place: string, flag: bool, n: nat, lint: Linter)
    requires schema.JObj? && n <= |GROUPS|
    ensures Findings(WalkGroups(schema, place, flag, n), lint) == Flat(WalkFindings(GroupWalks(schema, place, flag, n), lint))
  {
    if n > 0 {
      GroupsFindings(schema, place, flag, n - 1, lint);
      GroupsFindingsStep(schema, place, flag, n, WalkGroup(schema, place, flag, GROUPS[n - 1]), lint);
      GroupPartsNext(schema, place, flag, n, lint);
    }
  }

  lemma {:induction false} GroupsFindingsStep(schema: Json, place: string, flag: bool, n: nat, last: seq<Visit>, lint: Linter)
    requires schema.JObj? && 0 < n <= |GROUPS| && last == WalkGroup(schema, place, flag, GROUPS[n - 1])
    ensures Findings(WalkGroups(schema, place, flag, n), lint) ==
            Findings(WalkGroups(schema, place, flag, n - 1), lint) + Findings(last, lint)
  {
    FindingsConcat(WalkGroups(schema, place, flag, n - 1), last, lint);
  }

  // ----- the recursive methods

  /** The errors of a schema and everything below it: exactly the findings at the positions of the
      traversal, in its order, unless one of them is an exception. */
  method IterSchema(schema: Json, place: string, flag: bool, top: bool, lint: Linter) returns (r: Option<seq<Finding>>)
    ensures r == Outcome(Findings(Walk(schema, place, flag, top), lint))
    ensures r.None? <==> Raise in Findings(Walk(schema, place, flag, top), lint)
    ensures r.Some? ==> r.value == Findings(Walk(schema, place, flag, top), lint)
    decreases schema, 3, 0
  {
    ghost var root := Node([], place, schema, flag, top);
    FindingsOne(root, lint);
    assert [root] + [] == [root];
    if !schema.JObj? && !schema.JBool? {
      return Some([Complaint(place, NotASchema)]);
    }
    if schema.JBool? { return Some([]); }
    FindingsConcat([root], WalkGroups(schema, place, flag, |GROUPS|), lint);
    var errors := lint(schema.fields, place, top, flag);
    if Raise in errors { return None; }
    r := IterGroups(schema, place, flag, lint);
    if r.Some? { r := Some(errors + r.value); }
  }

  lemma {:induction false} GroupOrder(n: nat)
    requires n < |GROUPS|
    ensures GROUPS[n] == Properties <==> n == 0
    ensures GROUPS[n] == Checks <==> n == 1
  {
  }

  /** The loops over the keywords; from `checks` on the context is in checks. */
  method IterGroups(schema: Json, place: string, flag: bool, lint: Linter) returns (r: Option<seq<Finding>>)
    requires schema.JObj?
    ensures r == Outcome(Findings(WalkGroups(schema, place, flag, |GROUPS|), lint))
    decreases schema, 2, 1
  {
    ghost var parts := WalkFindings(GroupWalks(schema, place, flag, |GROUPS|), lint);
    GroupsFindings(schema, place, flag, |GROUPS|, lint);
    var errors: seq<Finding> := [];
    var inChecks := flag;
    for n := 0 to |GROUPS|
      invariant errors == Flat(parts[..n]) && Raise !in errors
      invariant inChecks == (flag || n > 1)
    {
      GroupOrder(n);
      if GROUPS[n] == Checks { inChecks := true; }
      var more := IterGroup(schema, place, inChecks, flag, GROUPS[n], lint);
      assert more == Outcome(parts[n]);
      if more.None? {
        FlatRaise(parts, n);
        return None;
      }
      FlatNext(parts, n);
      errors := errors + more.value;
    }
    assert parts[..|parts|] == parts;
    r := Some(errors);
  }

  /** One keyword: its children in document order, or one complaint about its shape. */
  method IterGroup(schema: Json, place: string, inChecks: bool, ghost flag: bool, g: Group, lint: Linter)
    returns (r: Option<seq<Finding>>)
    requires schema.JObj? && inChecks == ChildFlag(flag, g)
    ensures r == Outcome(Findings(WalkGroup(schema, place, flag, g), lint))
    decreases schema, 2, 0
  {
    if Malformed(schema.fields, g) {
      FindingsOne(BadGroup([], BadLabel(schema.fields, place, g), g), lint);
      return Some([Complaint(BadLabel(schema.fields, place, g), WrongShape)]);
    }
    JoinedFindings(g, KidWalks(schema, place, flag, g), lint);
    r := IterKids(schema, place, inChecks, flag, g, lint);
  }

  /** The loop over one keyword's children. */
  method IterKids(schema: Json, place: string, inChecks: bool, ghost flag: bool, g: Group, lint: Linter)
    returns (r: Option<seq<Finding>>)
    requires inChecks == ChildFlag(flag, g)
    ensures r == Outcome(Flat(WalkFindings(KidWalks(schema, place, flag, g), lint)))
    decreases schema, 1, 0
  {
    ghost var parts := WalkFindings(KidWalks(schema, place, flag, g), lint);
    var errors: seq<Finding> := [];
    var kids := Kids(schema, g);
    for i := 0 to |kids|
      invariant errors == Flat(parts[..i]) && Raise !in errors
    {
      var more := IterSchema(kids[i], KidLabel(schema, place, g, i), inChecks, false, lint);
      assert more == Outcome(parts[i]);
      if more.None? {
        FlatRaise(parts, i);
        return None;
      }
      FlatNext(parts, i);
      errors := errors + more.value;
    }
    assert parts[..|parts|] == parts;
    r := Some(errors);
  }

  // ----- the default and nullability checks

  /** Whether `key in schema.get("required", [])` holds; `None` when Python raises a TypeError. */
  function Required(fields: seq<Entry>, key: string): Option<bool> {
    match Get(fields, "required")
    case None => Some(false)
    case Some(JList(items)) => Some(JStr(key) in items)
    case Some(JObj(entries)) => Some(exists i :: 0 <= i < |entries| && entries[i].key == key)
    case Some(JStr(text)) => Some(exists i :: 0 <= i <= |text| && key <= text[i..])
    case Some(_) => None
  }

  /** Whether a property schema admits null; `None` when the assertion or a membership test raises. */
  function Nullable(sub: Json): Option<bool> {
    match sub
    case JBool(b) => Some(b)
    case JObj(fields) =>
      if Get(fields, "const").Some? then Some(false)
      else if Get(fields, "enum").Some? then
        match Get(fields, "enum").value
        case JList(items) => Some(JNull in items)
        case JObj(_) => Some(false)
        case _ => None
      else if Get(fields, "type").Some? then
        match Get(fields, "type").value
        case JList(items) => Some(JStr("null") in items)
        case other => Some(other == JStr("null"))
      else Some(false)
    case _ => None
  }

  predicate HasDefault(sub: Json) {
    sub.JObj? && Get(sub.fields, "default").Some?
  }

  function DefaultFindings(fields: seq<Entry>, e: Entry, place: string): seq<Finding> {
    match Required(fields, e.key)
    case None => [Raise]
    case Some(required) =>
      if required && HasDefault(e.value) then [Complaint(place + "." + e.key, DefaultForRequired)]
      else if !required && e.value.JObj? && !HasDefault(e.value) then
        [Complaint(place + "." + e.key, NoDefaultForOptional)]
      else []
  }

  function NullFindings(fields: seq<Entry>, e: Entry, place: string): seq<Finding> {
    if e.value == JBool(true) then []
    else
      match (Required(fields, e.key), Nullable(e.value))
      case (Some(required), Some(nullable)) =>
        if required && nullable then [Complaint(place + "." + e.key, RequiredIsNullable)]
        else if !required && !nullable then [Complaint(place + "." + e.key, OptionalNotNullable)]
        else []
      case _ => [Raise]
  }

  function DefaultParts(fields: seq<Entry>, entries: seq<Entry>, place: string): (parts: seq<seq<Finding>>)
    ensures |parts| == |entries|
  {
    seq(|entries|, i requires 0 <= i < |entries| => DefaultFindings(fields, entries[i], place))
  }

  function NullParts(fields: seq<Entry>, entries: seq<Entry>, place: string): (parts: seq<seq<Finding>>)
    ensures |parts| == |entries|
  {
    seq(|entries|, i requires 0 <= i < |entries| => NullFindings(fields, entries[i], place))
  }

  /** check_defaults followed by check_nullable. */
  function CheckProperties(fields: seq<Entry>, place: string, top: bool, flag: bool): seq<Finding> {
    if flag || Get(fields, "properties").None? then []
    else
      match Get(fields, "properties").value
      case JObj(entries) => Flat(DefaultParts(fields, entries, place)) + Flat(NullParts(fields, entries, place))
      case _ => [Raise]
  }

  /** A property is either required, not nullable and without a default, or optional, nullable and
      with a default; `true` is always allowed and `false` must be required. */
  predicate PropertyOk(fields: seq<Entry>, e: Entry) {
    match Required(fields, e.key)
    case None => false
    case Some(required) =>
      match e.value
      case JBool(b) => b || required
      case JObj(_) => Nullable(e.value) == Some(!required) && HasDefault(e.value) == !required
      case _ => false
  }

  predicate PropertiesOk(fields: seq<Entry>) {
    match Get(fields, "properties")
    case None => true
    case Some(JObj(entries)) => forall i :: 0 <= i < |entries| ==> PropertyOk(fields, entries[i])
    case Some(_) => false
  }

  lemma {:induction false} FlatEmpty(parts: seq<seq<Finding>>)
    ensures Flat(parts) == [] <==> forall i :: 0 <= i < |parts| ==> parts[i] == []
  {
    if parts != [] {
      FlatEmpty(parts[..|parts| - 1]);
      assert parts == parts[..|parts| - 1] + [parts[|parts| - 1]];
    }
  }

  lemma {:induction false} PropertyClean(fields: seq<Entry>, e: Entry, place: string)
    ensures DefaultFindings(fields, e, place) == [] && NullFindings(fields, e, place) == [] <==> PropertyOk(fields, e)
  {
  }

  lemma {:induction false} PropertiesClean(fields: seq<Entry>, place: string, top: bool, flag: bool)
    ensures CheckProperties(fields, place, top, flag) == [] <==> flag || PropertiesOk(fields)
  {
    var p := Get(fields, "properties");
    if !flag && p.Some? && p.value.JObj? {
      var entries := p.value.fields;
      FlatEmpty(DefaultParts(fields, entries, place));
      FlatEmpty(NullParts(fields, entries, place));
      forall i | 0 <= i < |entries|
        ensures PropertyOk(fields, entries[i]) <==>
                DefaultParts(fields, entries, place)[i] == [] && NullParts(fields, entries, place)[i] == []
      {
        PropertyClean(fields, entries[i], place);
      }
    }
  }

  // ----- what a clean document looks like

  /** The element at a position is a schema, its groups have the right shape, and its properties are
      in order unless the position is in checks. */
  predicate ElementOk(node: Json, flag: bool) {
    match node
    case JBool(_) => true
    case JObj(fields) => (flag || PropertiesOk(fields)) && forall g :: !Malformed(fields, g)
    case _ => false
  }

  lemma {:induction false} FindingsEmpty(visits: seq<Visit>, lint: Linter)
    ensures Findings(visits, lint) == [] <==> forall i :: 0 <= i < |visits| ==> FindingsAt(visits[i], lint) == []
  {
    if visits != [] {
      FindingsEmpty(visits[..|visits| - 1], lint);
      assert visits == visits[..|visits| - 1] + [visits[|visits| - 1]];
    }
  }

  /** A clean group is well-formed and its children are clean. */
  lemma {:induction false} GroupClean(schema: Json, place: string, flag: bool, g: Group, lint: Linter)
    requires schema.JObj? && Findings(WalkGroup(schema, place, flag, g), lint) == []
    ensures !Malformed(schema.fields, g)
    ensures forall i :: 0 <= i < |Kids(schema, g)| ==>
              Findings(Walk(Kids(schema, g)[i], KidLabel(schema, place, g, i), ChildFlag(flag, g), false), lint) == []
  {
    if Malformed(schema.fields, g) {
      FindingsOne(BadGroup([], BadLabel(schema.fields, place, g), g), lint);
    } else {
      var walks := KidWalks(schema, place, flag, g);
      JoinedFindings(g, walks, lint);
      FlatEmpty(WalkFindings(walks, lint));
      forall i | 0 <= i < |Kids(schema, g)|
        ensures Findings(Walk(Kids(schema, g)[i], KidLabel(schema, place, g, i), ChildFlag(flag, g), false), lint) == []
      {
        assert WalkFindings(walks, lint)[i] == Findings(walks[i], lint);
      }
    }
  }

  /** A clean schema has no findings of its own and clean groups. */
  lemma {:induction false} SchemaClean(schema: Json, place: string, flag: bool, top: bool, lint: Linter)
    requires Findings(Walk(schema, place, flag, top), lint) == []
    ensures FindingsAt(Node([], place, schema, flag, top), lint) == []
    ensures schema.JObj? ==> forall g :: Findings(WalkGroup(schema, place, flag, g), lint) == []
  {
    var root := Node([], place, schema, flag, top);
    FindingsOne(root, lint);
    if schema.JObj? {
      FindingsConcat([root], WalkGroups(schema, place, flag, |GROUPS|), lint);
      GroupsFindings(schema, place, flag, |GROUPS|, lint);
      var walks := GroupWalks(schema, place, flag, |GROUPS|);
      FlatEmpty(WalkFindings(walks, lint));
      forall g ensures Findings(WalkGroup(schema, place, flag, g), lint) == [] {
        GroupNumber(GroupIndex(g), g);
        assert WalkFindings(walks, lint)[GroupIndex(g)] == Findings(walks[GroupIndex(g)], lint);
      }
    } else {
      assert [root] + [] == [root];
    }
  }

  /** Nothing is found in a schema, wherever it is said to be. */
  ghost predicate Tidy(schema: Json, flag: bool) {
    exists place, top :: TidyAt(schema, place, flag, top)
  }

  predicate TidyAt(schema: Json, place: string, flag: bool, top: bool) {
    Findings(Walk(schema, place, flag, top), CheckProperties) == []
  }

  lemma {:induction false} KidClean(schema: Json, place: string, flag: bool, top: bool, g: Group, i: nat, lint: Linter)
    requires Findings(Walk(schema, place, flag, top), lint) == [] && i < |Kids(schema, g)|
    ensures Findings(Walk(Kids(schema, g)[i], KidLabel(schema, place, g, i), ChildFlag(flag, g), false), lint) == []
  {
    SchemaClean(schema, place, flag, top, lint);
    GroupClean(schema, place, flag, g, lint);
  }

  lemma {:induction false} TidyKid(schema: Json, flag: bool, g: Group, i: nat)
    requires Tidy(schema, flag) && i < |Kids(schema, g)|
    ensures Tidy(Kids(schema, g)[i], ChildFlag(flag, g))
  {
    var place, top :| TidyAt(schema, place, flag, top);
    KidClean(schema, place, flag, top, g, i, CheckProperties);
    assert TidyAt(Kids(schema, g)[i], KidLabel(schema, place, g, i), ChildFlag(flag, g), false);
  }

  lemma {:induction false} TidyHere(schema: Json, flag: bool)
    requires Tidy(schema, flag)
    ensures ElementOk(schema, flag)
  {
    var place, top :| TidyAt(schema, place, flag, top);
    SchemaClean(schema, place, flag, top, CheckProperties);
    if schema.JObj? {
      PropertiesClean(schema.fields, place, top, flag);
      forall g ensures !Malformed(schema.fields, g) { GroupClean(schema, place, flag, g, CheckProperties); }
    }
  }

  /** What every schema passes on to its children holds at every position. */
  lemma {:induction false} Inherited(p: (Json, bool) -> bool, schema: Json, flag: bool, q: seq<Edge>)
    requires forall s, f, g, i :: p(s, f) && 0 <= i < |Kids(s, g)| ==> p(Kids(s, g)[i], ChildFlag(f, g))
    requires p(schema, flag) && At(schema, q).Some?
    ensures p(At(schema, q).value, flag || Strays(q))
    decreases |q|
  {
    if q != [] {
      var g, i := q[0].group, q[0].index;
      Inherited(p, Kids(schema, g)[i], ChildFlag(flag, g), q[1..]);
      StraysStep(q[0], q[1..]);
      assert [q[0]] + q[1..] == q;
    }
  }

  lemma {:induction false} TidyEverywhere(schema: Json, flag: bool, q: seq<Edge>)
    requires Tidy(schema, flag) && At(schema, q).Some?
    ensures Tidy(At(schema, q).value, flag || Strays(q))
  {
    forall s, f, g, i | Tidy(s, f) && 0 <= i < |Kids(s, g)| ensures Tidy(Kids(s, g)[i], ChildFlag(f, g)) {
      TidyKid(s, f, g, i);
    }
    Inherited((s, f) => Tidy(s, f), schema, flag, q);
  }

  /** A visit to an element that is in order finds nothing. */
  lemma {:induction false} VisitClean(v: Visit, root: Json, flag: bool)
    requires VisitOk(v, root, flag)
    requires At(root, v.path).Some? && ElementOk(At(root, v.path).value, flag || Strays(v.path))
    ensures FindingsAt(v, CheckProperties) == []
  {
    if v.Node? && v.schema.JObj? { PropertiesClean(v.schema.fields, v.place, v.top, v.flag); }
  }

  /** The element at every structural position is in order. */
  ghost predicate InOrder(root: Json, flag: bool) {
    forall q :: At(root, q).Some? ==> ElementOk(At(root, q).value, flag || Strays(q))
  }

  lemma {:induction false} InOrderIsClean(root: Json, place: string, flag: bool)
    requires InOrder(root, flag)
    ensures Findings(Walk(root, place, flag, true), CheckProperties) == []
  {
    var visits := Walk(root, place, flag, true);
    forall i | 0 <= i < |visits| ensures FindingsAt(visits[i], CheckProperties) == [] {
      FlagsAreRight(root, place, flag, i);
      assert At(root, visits[i].path).Some?;
      VisitClean(visits[i], root, flag);
    }
    FindingsEmpty(visits, CheckProperties);
  }

  lemma {:induction false} CleanIsInOrder(root: Json, place: string, flag: bool)
    requires Findings(Walk(root, place, flag, true), CheckProperties) == []
    ensures InOrder(root, flag)
  {
    assert TidyAt(root, place, flag, true);
    forall q | At(root, q).Some? ensures ElementOk(At(root, q).value, flag || Strays(q)) {
      TidyEverywhere(root, flag, q);
      TidyHere(At(root, q).value, flag || Strays(q));
    }
  }

  /** The two checks find nothing in a document exactly when the element at every structural
      position is in order: in particular every dict-valued property of every object that is not in
      checks is required, non-nullable and default-free, or optional, nullable and defaulted. */
  lemma {:induction false} CleanDocument(root: Json, place: string, flag: bool)
    ensures Findings(Walk(root, place, flag, true), CheckProperties) == [] <==> InOrder(root, flag)
  {
    if InOrder(root, flag) { InOrderIsClean(root, place, flag); }
    if Findings(Walk(root, place, flag, true), CheckProperties) == [] { CleanIsInOrder(root, place, flag); }
  }
}
