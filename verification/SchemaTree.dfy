/** The structural positions of a JSON schema: which parts of the document are schemas themselves,
    how they are reached, and the order in which the linter visits them. */
module SchemaTree {
  import opened Wrappers

  datatype Json = JNull | JBool(b: bool) | JNum(n: int) | JStr(s: string) | JList(items: seq<Json>) | JObj(fields: seq<Entry>)

  datatype Entry = Entry(key: string, value: Json)

  /** The keywords whose values hold schemas. */
  datatype Group = Properties | Checks | OneOf | AnyOf | AllOf | Items | Additional | Not | Union

  const GROUPS: seq<Group> := [Properties, Checks, OneOf, AnyOf, AllOf, Items, Additional, Not, Union]

  /** A step from a schema to one of its child schemas. */
  datatype Edge = Edge(group: Group, index: nat)

  function IndexOf(fields: seq<Entry>, key: string): (i: nat)
    ensures i <= |fields|
  {
    if fields == [] then 0
    else if fields[0].key == key then 0
    else 1 + IndexOf(fields[1..], key)
  }

  function Get(fields: seq<Entry>, key: string): (r: Option<Json>)
    ensures r.Some? ==> r.value < JObj(fields)
  {
    var i := IndexOf(fields, key);
    if i < |fields| then Some(fields[i].value) else None
  }

  function Keyword(g: Group): string {
    match g
    case Properties => "properties"
    case Checks => "checks"
    case OneOf => "oneOf"
    case AnyOf => "anyOf"
    case AllOf => "allOf"
    case Items => "items"
    case Additional => "additionalProperties"
    case Not => "not"
    case Union => "union"
  }

  /** The value that holds a group's schemas; a union keeps them one level further down. */
  function Holder(fields: seq<Entry>, g: Group): (r: Option<Json>)
    ensures r.Some? ==> r.value < JObj(fields)
  {
    var h := Get(fields, Keyword(g));
    if g == Union && h.Some? && h.value.JObj? then Get(h.value.fields, "items") else h
  }

  predicate HolderOk(fields: seq<Entry>, g: Group, h: Json) {
    match g
    case Properties | Checks => h.JObj?
    case OneOf | AnyOf | AllOf => h.JList?
    case Items | Additional | Not => true
    case Union => h.JList? && Get(fields, "union").Some? && Get(fields, "union").value.JObj?
  }

  /** The group is present but its value has the wrong shape. */
  predicate Malformed(fields: seq<Entry>, g: Group) {
    Holder(fields, g).Some? && !HolderOk(fields, g, Holder(fields, g).value)
  }

  function Values(entries: seq<Entry>): seq<Json> {
    seq(|entries|, i requires 0 <= i < |entries| => entries[i].value)
  }

  /** The child schemas of a group, in document order. */
  function Kids(schema: Json, g: Group): (kids: seq<Json>)
    ensures forall i :: 0 <= i < |kids| ==> kids[i] < schema
  {
    if !schema.JObj? || Holder(schema.fields, g).None? || Malformed(schema.fields, g) then []
    else
      var h := Holder(schema.fields, g).value;
      match g
      case Properties | Checks => Values(h.fields)
      case OneOf | AnyOf | AllOf | Union => h.items
      case Items | Additional | Not => [h]
  }

  /** The schema at the end of a path, if the path exists. */
  function At(schema: Json, path: seq<Edge>): Option<Json> {
    if path == [] then Some(schema)
    else
      var kids := Kids(schema, path[0].group);
      if path[0].index < |kids| then At(kids[path[0].index], path[1..]) else None
  }

  /** The path leaves `properties` somewhere. */
  predicate Strays(path: seq<Edge>) {
    exists i :: 0 <= i < |path| && path[i].group != Properties
  }

  function ChildFlag(flag: bool, g: Group): bool {
    flag || g != Properties
  }

  // ----- the printed location of a child

  function Digits(n: nat): string {
    if n < 10 then [('0' as int + n) as char] else Digits(n / 10) + [('0' as int + n % 10) as char]
  }

  function GroupLabel(place: string, g: Group): string {
    place + "." + Keyword(g) + (if g == Union then ".items" else "")
  }

  /** Where a malformed group is reported; a union that is no dict is reported at the union itself. */
  function BadLabel(fields: seq<Entry>, place: string, g: Group): string {
    if g == Union && !(Get(fields, "union").Some? && Get(fields, "union").value.JObj?) then place + ".union"
    else GroupLabel(place, g)
  }

  function KidLabel(schema: Json, place: string, g: Group, i: nat): string {
    match g
    case Properties | Checks =>
      GroupLabel(place, g) + "." +
      (if schema.JObj? && Holder(schema.fields, g).Some? && Holder(schema.fields, g).value.JObj?
          && i < |Holder(schema.fields, g).value.fields|
       then Holder(schema.fields, g).value.fields[i].key else "")
    case OneOf | AnyOf | AllOf | Union => GroupLabel(place, g) + "[" + Digits(i) + "]"
    case Items | Additional | Not => GroupLabel(place, g)
  }

  // ----- the traversal

  /** What the linter looks at, with its path from where the traversal started: a structural element
      with its in-checks flag, or a group whose value has the wrong shape. */
  datatype Visit =
    | Node(path: seq<Edge>, place: string, schema: Json, flag: bool, top: bool)
    | BadGroup(path: seq<Edge>, place: string, group: Group)

  /** The same visits, seen from one step further up. */
  function Under(e: Edge, visits: seq<Visit>): (r: seq<Visit>)
    ensures |r| == |visits|
  {
    seq(|visits|, i requires 0 <= i < |visits| => visits[i].(path := [e] + visits[i].path))
  }

  function Walk(schema: Json, place: string, flag: bool, top: bool): seq<Visit>
    decreases schema, 3, 0
  {
    [Node([], place, schema, flag, top)] + (if schema.JObj? then WalkGroups(schema, place, flag, |GROUPS|) else [])
  }

  /** The first `n` groups of a schema, in order. */
  function WalkGroups(schema: Json, place: string, flag: bool, n: nat): seq<Visit>
    requires schema.JObj? && n <= |GROUPS|
    decreases schema, 2, n
  {
    if n == 0 then []
    else WalkGroups(schema, place, flag, n - 1) + WalkGroup(schema, place, flag, GROUPS[n - 1])
  }

  function WalkGroup(schema: Json, place: string, flag: bool, g: Group): seq<Visit>
    requires schema.JObj?
    decreases schema, 2, 0
  {
    if Malformed(schema.fields, g) then [BadGroup([], BadLabel(schema.fields, place, g), g)]
    else Joined(g, KidWalks(schema, place, flag, g))
  }

  /** The traversals of a group's children, one by one. */
  function KidWalks(schema: Json, place: string, flag: bool, g: Group): (walks: seq<seq<Visit>>)
    ensures |walks| == |Kids(schema, g)|
    decreases schema, 1, 0
  {
    seq(|Kids(schema, g)|, i requires 0 <= i < |Kids(schema, g)| =>
      Walk(Kids(schema, g)[i], KidLabel(schema, place, g, i), ChildFlag(flag, g), false))
  }

  /** Those traversals in a row, each below its own edge. */
  function Joined(g: Group, walks: seq<seq<Visit>>): seq<Visit> {
    if walks == [] then []
    else
      var n := |walks| - 1;
      Joined(g, walks[..n]) + Under(Edge(g, n), walks[n])
  }
}
