/** The words of the schema language: the keywords in the order they are followed, how children are
    named, and what `required` and nullability mean. */
module SchemaKeywords {
  import opened Wrappers
  import opened SchemaTree
  import opened SchemaLint

  // ----- keywords

  /** The keywords, in the order in which the traversal follows them. */
  lemma {:induction false} KeywordsInOrder()
    ensures |GROUPS| == 9
    ensures Keyword(GROUPS[0]) == "properties" && Keyword(GROUPS[1]) == "checks"
    ensures Keyword(GROUPS[2]) == "oneOf" && Keyword(GROUPS[3]) == "anyOf" && Keyword(GROUPS[4]) == "allOf"
    ensures Keyword(GROUPS[5]) == "items" && Keyword(GROUPS[6]) == "additionalProperties" && Keyword(GROUPS[7]) == "not"
    ensures Keyword(GROUPS[8]) == "union"
  {
  }

  lemma {:induction false} FirstEntry(key: string, value: Json)
    ensures Get([Entry(key, value)], key) == Some(value)
  {
  }

  /** A keyword whose value is a dict of schemas: each is a child, named by its key. */
  lemma {:induction false} DictKeyword(g: Group, key: string, sub: Json, place: string)
    requires g == Properties || g == Checks
    ensures var schema := JObj([Entry(Keyword(g), JObj([Entry(key, sub)]))]);
            Kids(schema, g) == [sub] && KidLabel(schema, place, g, 0) == place + "." + Keyword(g) + "." + key
  {
    FirstEntry(Keyword(g), JObj([Entry(key, sub)]));
    assert place + "." + Keyword(g) + "" == place + "." + Keyword(g);
  }

  /** A keyword whose value is a list of schemas: each is a child, named by its index. */
  lemma {:induction false} ListKeyword(g: Group, subs: seq<Json>, i: nat, place: string)
    requires (g == OneOf || g == AnyOf || g == AllOf) && i < |subs|
    ensures var schema := JObj([Entry(Keyword(g), JList(subs))]);
            Kids(schema, g) == subs && KidLabel(schema, place, g, i) == place + "." + Keyword(g) + "[" + Digits(i) + "]"
  {
    FirstEntry(Keyword(g), JList(subs));
    assert place + "." + Keyword(g) + "" == place + "." + Keyword(g);
  }

  /** A keyword whose value is a schema: it is the child. */
  lemma {:induction false} SchemaKeyword(g: Group, sub: Json, place: string)
    requires g == Items || g == Additional || g == Not
    ensures var schema := JObj([Entry(Keyword(g), sub)]);
            Kids(schema, g) == [sub] && KidLabel(schema, place, g, 0) == place + "." + Keyword(g)
  {
    FirstEntry(Keyword(g), sub);
    assert place + "." + Keyword(g) + "" == place + "." + Keyword(g);
  }

  /** The custom union: its schemas are the items of a dict. */
  lemma {:induction false} UnionKeyword(subs: seq<Json>, i: nat, place: string)
    requires i < |subs|
    ensures var schema := JObj([Entry("union", JObj([Entry("items", JList(subs))]))]);
            Kids(schema, Union) == subs && KidLabel(schema, place, Union, i) == place + ".union.items[" + Digits(i) + "]"
  {
    FirstEntry("union", JObj([Entry("items", JList(subs))]));
    FirstEntry("items", JList(subs));
    assert place + "." + "union" + ".items" + "[" == place + ".union.items[";
  }

  /** Which values of a keyword have the wrong shape, and where that is reported. */
  lemma {:induction false} MalformedExactly(fields: seq<Entry>, g: Group, place: string)
    ensures g != Union ==>
              (Malformed(fields, g) <==>
                 Get(fields, Keyword(g)).Some? &&
                 match g
                 case Properties | Checks => !Get(fields, Keyword(g)).value.JObj?
                 case OneOf | AnyOf | AllOf => !Get(fields, Keyword(g)).value.JList?
                 case _ => false)
    ensures g != Union ==> BadLabel(fields, place, g) == place + "." + Keyword(g)
    ensures Malformed(fields, Union) <==>
              Get(fields, "union").Some? &&
              match Get(fields, "union").value
              case JObj(inner) => Get(inner, "items").Some? && !Get(inner, "items").value.JList?
              case _ => true
    ensures Malformed(fields, Union) ==>
              BadLabel(fields, place, Union) ==
              if Get(fields, "union").value.JObj? then place + ".union.items" else place + ".union"
  {
    assert place + "." + Keyword(g) + "" == place + "." + Keyword(g);
    assert place + "." + "union" + ".items" == place + ".union.items";
  }

  // ----- printed numbers

  function Value(digits: string): int {
    if digits == [] then 0 else 10 * Value(digits[..|digits| - 1]) + (digits[|digits| - 1] as int - '0' as int)
  }

  /** An index is printed in decimal, without leading zeros. */
  lemma {:induction false} DigitsExactly(n: nat)
    ensures Digits(n) != [] && Value(Digits(n)) == n
    ensures forall i :: 0 <= i < |Digits(n)| ==> '0' <= Digits(n)[i] <= '9'
    ensures n > 0 ==> Digits(n)[0] != '0'
    decreases n
  {
    if n >= 10 {
      DigitsExactly(n / 10);
      var d := Digits(n);
      assert d[..|d| - 1] == Digits(n / 10);
    } else {
      var d := Digits(n);
      assert d[..0] == [] && Value(d[..0]) == 0;
    }
  }

  // ----- required

  /** A key is required exactly as Python's `in` says of the value of `required`: an item of a list, a
      key of a dict, a part of a string; of nothing if there is no such value; and it is an error for
      any other value. */
  lemma {:induction false} RequiredExactly(fields: seq<Entry>, key: string)
    ensures Get(fields, "required") == None ==> Required(fields, key) == Some(false)
    ensures forall items :: Get(fields, "required") == Some(JList(items)) ==>
              Required(fields, key) == Some(exists i :: 0 <= i < |items| && items[i] == JStr(key))
    ensures forall entries :: Get(fields, "required") == Some(JObj(entries)) ==>
              Required(fields, key) == Some(Get(entries, key).Some?)
    ensures forall before, after: string :: Get(fields, "required") == Some(JStr(before + key + after)) ==>
              Required(fields, key) == Some(true)
    ensures Required(fields, key) == None <==>
              Get(fields, "required").Some? && match Get(fields, "required").value
                                               case JNull | JBool(_) | JNum(_) => true
                                               case _ => false
  {
    forall entries | Get(fields, "required") == Some(JObj(entries))
      ensures Required(fields, key) == Some(Get(entries, key).Some?)
    {
      GetFinds(entries, key);
    }
    forall before, after: string | Get(fields, "required") == Some(JStr(before + key + after))
      ensures Required(fields, key) == Some(true)
    {
      var text := before + key + after;
      assert text[|before|..] == key + after;
      assert key <= text[|before|..];
    }
  }

  /** Looking a key up finds it exactly if some entry has it. */
  lemma {:induction false} GetFinds(entries: seq<Entry>, key: string)
    ensures Get(entries, key).Some? <==> exists i :: 0 <= i < |entries| && entries[i].key == key
    ensures Get(entries, key).Some? ==> exists i :: 0 <= i < |entries| && entries[i].key == key && entries[i].value == Get(entries, key).value
  {
    if entries != [] && entries[0].key != key {
      var rest := entries[1..];
      GetFinds(rest, key);
      if i :| 0 <= i < |rest| && rest[i].key == key { assert entries[i + 1].key == key; }
      if i :| 0 <= i < |entries| && entries[i].key == key { assert rest[i - 1].key == key; }
      if Get(rest, key).Some? {
        var i :| 0 <= i < |rest| && rest[i].key == key && rest[i].value == Get(rest, key).value;
        assert entries[i + 1] == rest[i];
      }
    } else if entries != [] {
      assert entries[0].key == key;
    }
  }

  /** A default is an entry of that name. */
  lemma {:induction false} DefaultExactly(sub: Json)
    ensures HasDefault(sub) <==> sub.JObj? && exists i :: 0 <= i < |sub.fields| && sub.fields[i].key == "default"
  {
    if sub.JObj? { GetFinds(sub.fields, "default"); }
  }

  // ----- nullability

  predicate Has(sub: Json, key: string) {
    sub.JObj? && Get(sub.fields, key).Some?
  }

  function Of(sub: Json, key: string): Json
    requires Has(sub, key)
  {
    Get(sub.fields, key).value
  }

  predicate TypeIncludesNull(t: Json) {
    match t
    case JList(items) => JStr("null") in items
    case JStr(name) => name == "null"
    case _ => false
  }

  /** Null is valid against the three keywords that can exclude it, as JSON Schema reads them. */
  predicate AcceptsNull(sub: Json) {
    && (Has(sub, "const") ==> Of(sub, "const") == JNull)
    && (Has(sub, "enum") ==> Of(sub, "enum").JList? && JNull in Of(sub, "enum").items)
    && (Has(sub, "type") ==> TypeIncludesNull(Of(sub, "type")))
  }

  /** The schemas on which the linter's short cut and JSON Schema part: a constant null, an enumeration
      with null beside a type without it, and a schema with none of the three keywords. */
  predicate PartsWays(sub: Json) {
    || (Has(sub, "const") && AcceptsNull(sub))
    || (!Has(sub, "const") && Has(sub, "enum") && Has(sub, "type") && Of(sub, "enum").JList? && JNull in Of(sub, "enum").items
        && !TypeIncludesNull(Of(sub, "type")))
    || (!Has(sub, "const") && !Has(sub, "enum") && !Has(sub, "type"))
  }

  /** Exactly when the linter's reading of nullability is that of JSON Schema. */
  lemma {:induction false} NullableExactly(sub: Json)
    requires sub.JObj? && (Has(sub, "enum") && !Has(sub, "const") ==> Of(sub, "enum").JList? || Of(sub, "enum").JObj?)
    ensures Nullable(sub) == Some(AcceptsNull(sub)) <==> !PartsWays(sub)
    ensures Nullable(sub).Some?
  {
  }

  /** Booleans are nullable as they stand; other values, and an enumeration that is neither a list nor a
      dict, make the check raise. */
  lemma {:induction false} NullableElsewhere(sub: Json)
    ensures forall b :: sub == JBool(b) ==> Nullable(sub) == Some(b)
    ensures Nullable(sub) == None <==>
            || (!sub.JBool? && !sub.JObj?)
            || (Has(sub, "enum") && !Has(sub, "const") && !Of(sub, "enum").JList? && !Of(sub, "enum").JObj?)
  {
  }
}
