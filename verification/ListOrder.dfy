/** The order of list endpoints: the multi-key comparator handed to an unstable sort, and the page
    ranges cut from the result.  A message is a map from field numbers to values. */
module ListOrder {
  import opened Wrappers

  datatype Float = NaN | NegInf | Num(r: real) | PosInf

  datatype Timestamp = Timestamp(seconds: int, nanos: int)

  /** A field value by protobuf kind; `Unsupported` is any kind the comparator panics on, repeated
      fields included. */
  datatype Field =
    | BoolField(b: bool)
    | EnumField(e: int)
    | IntField(i: int)
    | UintField(u: nat)
    | FloatField(f: Float)
    | StringField(s: string)
    | TimeField(t: Option<Timestamp>)
    | Unsupported

  type Message = map<int, Field>

  datatype OrderBy = Asc | Desc

  /** One key's comparison: equal values go on to the next key. */
  datatype Verdict = Tie | Answer(less: bool) | Panic

  predicate FloatLess(a: Float, b: Float) {
    match (a, b)
    case (NaN, _) => false
    case (_, NaN) => false
    case (NegInf, _) => !b.NegInf?
    case (Num(x), Num(y)) => x < y
    case (Num(_), _) => b.PosInf?
    case (PosInf, _) => false
  }

  predicate StringLess(a: string, b: string) {
    if b == [] then false
    else if a == [] then true
    else a[0] < b[0] || (a[0] == b[0] && StringLess(a[1..], b[1..]))
  }

  function CompareFields(a: Field, b: Field): Verdict {
    match (a, b)
    case (BoolField(x), BoolField(y)) => if x == y then Tie else Answer(x)
    case (EnumField(x), EnumField(y)) => if x == y then Tie else Answer(x < y)
    case (IntField(x), IntField(y)) => if x == y then Tie else Answer(x < y)
    case (UintField(x), UintField(y)) => if x == y then Tie else Answer(x < y)
    case (FloatField(x), FloatField(y)) => if x == y && x != NaN then Tie else Answer(FloatLess(x, y))
    case (StringField(x), StringField(y)) => if x == y then Tie else Answer(StringLess(x, y))
    case (TimeField(x), TimeField(y)) =>
      if x.None? && y.None? then Tie
      else if x.None? then Answer(true)
      else if y.None? then Answer(false)
      else if x.value.seconds == y.value.seconds then
        if x.value.nanos == y.value.nanos then Tie else Answer(x.value.nanos < y.value.nanos)
      else Answer(x.value.seconds < y.value.seconds)
    case _ => Panic
  }

  /** Keys in turn; key 0 is skipped, and a list of ties is not less. */
  function Compare(keys: seq<int>, a: Message, b: Message): Verdict {
    if keys == [] then Answer(false)
    else
      var k := keys[0];
      if k == 0 then Compare(keys[1..], a, b)
      else if k !in a || k !in b then Panic
      else
        var v := CompareFields(a[k], b[k]);
        if v.Tie? then Compare(keys[1..], a, b) else v
  }

  /** The closure the sort calls: descending order swaps its arguments. */
  function Less(order: OrderBy, keys: seq<int>, a: Message, b: Message): Verdict {
    if order == Desc then Compare(keys, b, a) else Compare(keys, a, b)
  }

  /** The same closure as the loop it is. */
  method LessLoop(order: OrderBy, keys: seq<int>, m1: Message, m2: Message) returns (v: Verdict)
    ensures v == Less(order, keys, m1, m2)
  {
    var a1, a2 := m1, m2;
    if order == Desc { a1, a2 := m2, m1; }
    for i := 0 to |keys|
      invariant Compare(keys, a1, a2) == Compare(keys[i..], a1, a2)
    {
      var key := keys[i];
      assert keys[i..][1..] == keys[i + 1..];
      if key != 0 {
        if key !in a1 || key !in a2 { return Panic; }
        v := CompareFields(a1[key], a2[key]);
        if v != Tie { return; }
      }
    }
    v := Answer(false);
  }

  predicate Before(order: OrderBy, keys: seq<int>, a: Message, b: Message) {
    Less(order, keys, a, b) == Answer(true)
  }

  // ----- the comparator is a strict weak order

  predicate Comparable(x: Field) {
    !x.Unsupported? && x != FloatField(NaN)
  }

  predicate SameKind(x: Field, y: Field) {
    match x
    case BoolField(_) => y.BoolField?
    case EnumField(_) => y.EnumField?
    case IntField(_) => y.IntField?
    case UintField(_) => y.UintField?
    case FloatField(_) => y.FloatField?
    case StringField(_) => y.StringField?
    case TimeField(_) => y.TimeField?
    case Unsupported => y.Unsupported?
  }

  /** Two messages of one type whose key fields are all of supported kinds. */
  predicate Matching(keys: seq<int>, a: Message, b: Message) {
    forall k :: k in keys && k != 0 ==>
      k in a && k in b && SameKind(a[k], b[k]) && Comparable(a[k]) && Comparable(b[k])
  }

  predicate SameKeys(keys: seq<int>, a: Message, b: Message) {
    forall k :: k in keys && k != 0 && k in a && k in b ==> a[k] == b[k]
  }

  lemma {:induction false} StringTrichotomy(a: string, b: string)
    ensures StringLess(a, b) <==> a != b && !StringLess(b, a)
  {
    if a != [] && b != [] {
      StringTrichotomy(a[1..], b[1..]);
      assert a == [a[0]] + a[1..] && b == [b[0]] + b[1..];
    }
  }

  lemma {:induction false} StringTransitive(a: string, b: string, c: string)
    requires StringLess(a, b) && StringLess(b, c)
    ensures StringLess(a, c)
  {
    if a != [] && a[0] == b[0] == c[0] { StringTransitive(a[1..], b[1..], c[1..]); }
  }

  lemma {:induction false} FieldTrichotomy(x: Field, y: Field)
    requires SameKind(x, y) && Comparable(x) && Comparable(y)
    ensures CompareFields(x, y).Tie? <==> x == y
    ensures x != y ==> CompareFields(x, y).Answer? && CompareFields(y, x) == Answer(!CompareFields(x, y).less)
  {
    if x.StringField? { StringTrichotomy(x.s, y.s); }
  }

  lemma {:induction false} FieldTransitive(x: Field, y: Field, z: Field)
    requires SameKind(x, y) && SameKind(y, z) && Comparable(x) && Comparable(y) && Comparable(z)
    requires CompareFields(x, y) == Answer(true) && CompareFields(y, z) == Answer(true)
    ensures CompareFields(x, z) == Answer(true)
  {
    if x.StringField? {
      StringTransitive(x.s, y.s, z.s);
      StringTrichotomy(x.s, z.s);
    }
  }

  /** Exactly one holds: the first message is before the second, after it, or equal to it on every
      key; and the comparator never panics. */
  lemma {:induction false} Trichotomy(keys: seq<int>, a: Message, b: Message)
    requires Matching(keys, a, b)
    ensures Compare(keys, a, b).Answer? && Compare(keys, b, a).Answer?
    ensures SameKeys(keys, a, b) <==> !Compare(keys, a, b).less && !Compare(keys, b, a).less
    ensures !(Compare(keys, a, b).less && Compare(keys, b, a).less)
  {
    if keys != [] {
      var k := keys[0];
      assert keys == [k] + keys[1..];
      assert Matching(keys[1..], a, b);
      Trichotomy(keys[1..], a, b);
      if k != 0 {
        assert k in keys;
        FieldTrichotomy(a[k], b[k]);
        assert SameKeys(keys, a, b) <==> a[k] == b[k] && SameKeys(keys[1..], a, b);
      }
    }
  }

  lemma {:induction false} CompareTransitive(keys: seq<int>, a: Message, b: Message, c: Message)
    requires Matching(keys, a, b) && Matching(keys, b, c)
    requires Compare(keys, a, b) == Answer(true) && Compare(keys, b, c) == Answer(true)
    ensures Compare(keys, a, c) == Answer(true)
  {
    var k := keys[0];
    var rest := keys[1..];
    assert keys == [k] + rest;
    assert Matching(rest, a, b) && Matching(rest, b, c);
    if k == 0 {
      CompareTransitive(rest, a, b, c);
    } else {
      FieldTrichotomy(a[k], b[k]);
      FieldTrichotomy(b[k], c[k]);
      if a[k] == b[k] && b[k] == c[k] {
        CompareTransitive(rest, a, b, c);
      } else if a[k] != b[k] && b[k] != c[k] {
        FieldTransitive(a[k], b[k], c[k]);
      }
    }
  }

  predicate Incomparable(order: OrderBy, keys: seq<int>, a: Message, b: Message) {
    !Before(order, keys, a, b) && !Before(order, keys, b, a)
  }

  /** For any key list over the supported kinds and either direction: irreflexive, transitive, and
      being incomparable is transitive too.  Descending is the exact converse of ascending. */
  lemma {:induction false} StrictWeakOrder(order: OrderBy, keys: seq<int>, a: Message, b: Message, c: Message)
    requires Matching(keys, a, b) && Matching(keys, b, c)
    ensures !Before(order, keys, a, a)
    ensures Before(order, keys, a, b) && Before(order, keys, b, c) ==> Before(order, keys, a, c)
    ensures Incomparable(order, keys, a, b) && Incomparable(order, keys, b, c) ==> Incomparable(order, keys, a, c)
    ensures Less(Desc, keys, a, b) == Less(Asc, keys, b, a)
  {
    assert Matching(keys, a, a) && Matching(keys, a, c) && Matching(keys, c, b) && Matching(keys, b, a);
    Trichotomy(keys, a, a);
    Trichotomy(keys, a, b);
    Trichotomy(keys, b, c);
    Trichotomy(keys, a, c);
    if Compare(keys, a, b) == Answer(true) && Compare(keys, b, c) == Answer(true) { CompareTransitive(keys, a, b, c); }
    if Compare(keys, c, b) == Answer(true) && Compare(keys, b, a) == Answer(true) { CompareTransitive(keys, c, b, a); }
  }

  // ----- NaN

  datatype Kind = BoolKind | EnumKind | IntKind | UintKind | FloatKind | StringKind | TimeKind

  /** The field is of this supported kind. */
  predicate OfKind(x: Field, kind: Kind) {
    match kind
    case BoolKind => x.BoolField?
    case EnumKind => x.EnumField?
    case IntKind => x.IntField?
    case UintKind => x.UintField?
    case FloatKind => x.FloatField?
    case StringKind => x.StringField?
    case TimeKind => x.TimeField?
  }

  /** A message type, as far as the sort keys go. */
  type Shape = map<int, Kind>

  predicate Sortable(keys: seq<int>, shape: Shape) {
    forall k :: k in keys && k != 0 ==> k in shape
  }

  predicate Typed(keys: seq<int>, shape: Shape, m: Message)
    requires Sortable(keys, shape)
  {
    forall k :: k in keys && k != 0 ==> k in m && OfKind(m[k], shape[k])
  }

  predicate HasFloatKey(keys: seq<int>, shape: Shape)
    requires Sortable(keys, shape)
  {
    exists k :: k in keys && k != 0 && shape[k] == FloatKind
  }

  ghost predicate TiesAreTransitive(order: OrderBy, keys: seq<int>, shape: Shape)
    requires Sortable(keys, shape)
  {
    forall a, b, c | Typed(keys, shape, a) && Typed(keys, shape, b) && Typed(keys, shape, c) ::
      Incomparable(order, keys, a, b) && Incomparable(order, keys, b, c) ==> Incomparable(order, keys, a, c)
  }

  function ZeroOf(kind: Kind): Field {
    match kind
    case BoolKind => BoolField(false)
    case EnumKind => EnumField(0)
    case IntKind => IntField(0)
    case UintKind => UintField(0)
    case FloatKind => FloatField(Num(0.0))
    case StringKind => StringField("")
    case TimeKind => TimeField(None)
  }

  function Zero(shape: Shape): Message {
    map k | k in shape :: ZeroOf(shape[k])
  }

  /** Messages that tie on every key but `k` are compared by `k`. */
  lemma {:induction false} DecidedBy(keys: seq<int>, a: Message, b: Message, k: int)
    requires k in keys && k != 0 && k in a && k in b && !CompareFields(a[k], b[k]).Tie?
    requires forall q :: q in keys && q != 0 && q != k ==> q in a && q in b && CompareFields(a[q], b[q]).Tie?
    ensures Compare(keys, a, b) == CompareFields(a[k], b[k])
  {
    assert keys == [keys[0]] + keys[1..];
    if keys[0] != k { DecidedBy(keys[1..], a, b, k); }
  }

  /** Two messages that differ from the zero message in one float key only. */
  lemma {:induction false} OneFloatApart(order: OrderBy, keys: seq<int>, shape: Shape, k: int, x: Float, y: Float)
    requires Sortable(keys, shape) && k in keys && k != 0 && shape[k] == FloatKind
    requires x != y
    ensures var a, b := Zero(shape)[k := FloatField(x)], Zero(shape)[k := FloatField(y)];
            && Typed(keys, shape, a)
            && (Before(order, keys, a, b) <==> if order == Desc then FloatLess(y, x) else FloatLess(x, y))
  {
    var a, b := Zero(shape)[k := FloatField(x)], Zero(shape)[k := FloatField(y)];
    DecidedBy(keys, a, b, k);
    DecidedBy(keys, b, a, k);
  }

  /** One float key is enough: 1 and 2 are both incomparable to NaN, yet not to each other. */
  lemma {:induction false} FloatKeyBreaks(order: OrderBy, keys: seq<int>, shape: Shape)
    requires Sortable(keys, shape) && HasFloatKey(keys, shape)
    ensures !TiesAreTransitive(order, keys, shape)
  {
    var k :| k in keys && k != 0 && shape[k] == FloatKind;
    var zero := Zero(shape);
    var one, two, nan := zero[k := FloatField(Num(1.0))], zero[k := FloatField(Num(2.0))], zero[k := FloatField(NaN)];
    OneFloatApart(order, keys, shape, k, Num(1.0), NaN);
    OneFloatApart(order, keys, shape, k, NaN, Num(1.0));
    OneFloatApart(order, keys, shape, k, NaN, Num(2.0));
    OneFloatApart(order, keys, shape, k, Num(2.0), NaN);
    OneFloatApart(order, keys, shape, k, Num(1.0), Num(2.0));
    OneFloatApart(order, keys, shape, k, Num(2.0), Num(1.0));
    assert Incomparable(order, keys, one, nan) && Incomparable(order, keys, nan, two);
    assert !Incomparable(order, keys, one, two);
  }

  /** Over all messages of a given type, being incomparable is transitive, as an order needs, exactly
      when no sort key is a float. */
  lemma {:induction false} WeakOrderExactly(order: OrderBy, keys: seq<int>, shape: Shape)
    requires Sortable(keys, shape)
    ensures TiesAreTransitive(order, keys, shape) <==> !HasFloatKey(keys, shape)
  {
    if HasFloatKey(keys, shape) {
      FloatKeyBreaks(order, keys, shape);
    } else {
      forall a, b, c | Typed(keys, shape, a) && Typed(keys, shape, b) && Typed(keys, shape, c) &&
          Incomparable(order, keys, a, b) && Incomparable(order, keys, b, c)
        ensures Incomparable(order, keys, a, c)
      {
        assert Matching(keys, a, b) && Matching(keys, b, c);
        StrictWeakOrder(order, keys, a, b, c);
      }
    }
  }

  // ----- the unstable sort is deterministic

  /** What `sort.Slice` promises: no element is before an earlier one. */
  predicate Sorted(order: OrderBy, keys: seq<int>, s: seq<Message>) {
    forall i, j :: 0 <= i < j < |s| ==> !Before(order, keys, s[j], s[i])
  }

  predicate AllMatching(keys: seq<int>, s: seq<Message>) {
    forall i, j :: 0 <= i < |s| && 0 <= j < |s| ==> Matching(keys, s[i], s[j])
  }

  /** Key `k` takes a different value in every message of the list. */
  predicate UniqueKey(k: int, s: seq<Message>) {
    && (forall i :: 0 <= i < |s| ==> k in s[i])
    && (forall i, j :: 0 <= i < j < |s| ==> s[i][k] != s[j][k])
  }

  lemma {:induction false} FirstIsLeast(order: OrderBy, keys: seq<int>, s: seq<Message>, x: Message)
    requires Sorted(order, keys, s) && x in s && Matching(keys, x, x)
    ensures !Before(order, keys, x, s[0])
  {
    Trichotomy(keys, x, x);
  }

  /** No two different messages of the list agree on every key. */
  predicate NoTies(keys: seq<int>, s: seq<Message>) {
    forall i, j :: 0 <= i < j < |s| && SameKeys(keys, s[i], s[j]) ==> s[i] == s[j]
  }

  lemma {:induction false} UniqueKeyNoTies(keys: seq<int>, k: int, s: seq<Message>)
    requires k in keys && k != 0 && UniqueKey(k, s)
    ensures NoTies(keys, s)
  {
  }

  lemma {:induction false} SameFirst(order: OrderBy, keys: seq<int>, s: seq<Message>, t: seq<Message>)
    requires s != [] && multiset(s) == multiset(t)
    requires AllMatching(keys, s) && Sorted(order, keys, s) && Sorted(order, keys, t) && NoTies(keys, s)
    ensures t != [] && s[0] == t[0]
  {
    assert |s| == |multiset(s)| == |multiset(t)| == |t|;
    assert s[0] in multiset(t) && t[0] in multiset(s);
    var j :| 0 <= j < |s| && s[j] == t[0];
    assert Matching(keys, s[0], s[j]) && Matching(keys, s[0], s[0]) && Matching(keys, s[j], s[j]);
    FirstIsLeast(order, keys, t, s[0]);
    FirstIsLeast(order, keys, s, s[j]);
    Trichotomy(keys, s[0], s[j]);
    assert SameKeys(keys, s[0], s[j]);
  }

  lemma {:induction false} TailSorted(order: OrderBy, keys: seq<int>, s: seq<Message>)
    requires s != [] && Sorted(order, keys, s)
    ensures Sorted(order, keys, s[1..])
  {
  }

  lemma {:induction false} TailDistinct(keys: seq<int>, s: seq<Message>)
    requires s != [] && AllMatching(keys, s) && NoTies(keys, s)
    ensures AllMatching(keys, s[1..]) && NoTies(keys, s[1..])
  {
  }

  lemma {:induction false} TailSame<T>(s: seq<T>, t: seq<T>)
    requires s != [] && t != [] && s[0] == t[0] && multiset(s) == multiset(t)
    ensures multiset(s[1..]) == multiset(t[1..])
    ensures s[1..] == t[1..] ==> s == t
  {
    assert s == [s[0]] + s[1..] && t == [t[0]] + t[1..];
    assert multiset(s[1..]) == multiset(s) - multiset{s[0]} == multiset(t[1..]);
  }

  /** Without ties, any two sorted permutations of a list are the same list. */
  lemma {:induction false} SortIsDeterministic(order: OrderBy, keys: seq<int>, s: seq<Message>, t: seq<Message>)
    requires multiset(s) == multiset(t)
    requires AllMatching(keys, s) && Sorted(order, keys, s) && Sorted(order, keys, t) && NoTies(keys, s)
    ensures s == t
  {
    if s == [] {
      assert |t| == |multiset(t)| == 0;
    } else {
      SameFirst(order, keys, s, t);
      TailSame(s, t);
      TailSorted(order, keys, s);
      TailSorted(order, keys, t);
      TailDistinct(keys, s);
      SortIsDeterministic(order, keys, s[1..], t[1..]);
    }
  }

  /** The comparison sees the keys only. */
  lemma {:induction false} KeysDecide(keys: seq<int>, a: Message, b: Message, a': Message, b': Message)
    requires Matching(keys, a, a') && Matching(keys, b, b') && SameKeys(keys, a, a') && SameKeys(keys, b, b')
    ensures Compare(keys, a, b) == Compare(keys, a', b')
  {
    if keys != [] {
      assert keys == [keys[0]] + keys[1..];
      assert Matching(keys[1..], a, a') && Matching(keys[1..], b, b');
      assert SameKeys(keys[1..], a, a') && SameKeys(keys[1..], b, b');
      KeysDecide(keys[1..], a, b, a', b');
    }
  }

  function Swapped<T>(s: seq<T>, i: nat, j: nat): seq<T>
    requires i < j < |s|
  {
    s[i := s[j]][j := s[i]]
  }

  lemma {:induction false} SwapPermutes<T>(s: seq<T>, i: nat, j: nat)
    requires i < j < |s|
    ensures multiset(Swapped(s, i, j)) == multiset(s)
  {
    assert s[j] == s[i := s[j]][j];
  }

  /** Two different messages that tie can change places in a sorted list. */
  lemma {:induction false} TiesSwap(order: OrderBy, keys: seq<int>, s: seq<Message>, i: nat, j: nat)
    requires i < j < |s| && AllMatching(keys, s) && Sorted(order, keys, s) && SameKeys(keys, s[i], s[j])
    ensures multiset(Swapped(s, i, j)) == multiset(s) && Sorted(order, keys, Swapped(s, i, j))
  {
    var t := Swapped(s, i, j);
    SwapPermutes(s, i, j);
    forall p | 0 <= p < |s| ensures SameKeys(keys, s[p], t[p]) && Matching(keys, s[p], t[p]) {
      assert Matching(keys, s[i], s[j]) && Matching(keys, s[j], s[i]) && Matching(keys, s[p], s[p]);
    }
    forall p, q | 0 <= p < q < |t| ensures !Before(order, keys, t[q], t[p]) {
      KeysDecide(keys, s[p], s[q], t[p], t[q]);
      KeysDecide(keys, s[q], s[p], t[q], t[p]);
    }
  }

  ghost predicate OnlySorting(order: OrderBy, keys: seq<int>, s: seq<Message>) {
    forall t :: multiset(t) == multiset(s) && Sorted(order, keys, t) ==> t == s
  }

  /** Exactly when an unstable sort has only one possible result: no two different messages agree on
      every key. */
  lemma {:induction false} SortExactly(order: OrderBy, keys: seq<int>, s: seq<Message>)
    requires AllMatching(keys, s) && Sorted(order, keys, s)
    ensures OnlySorting(order, keys, s) <==> NoTies(keys, s)
  {
    if NoTies(keys, s) {
      forall t | multiset(t) == multiset(s) && Sorted(order, keys, t) ensures t == s {
        SortIsDeterministic(order, keys, s, t);
      }
    } else {
      var i, j :| 0 <= i < j < |s| && SameKeys(keys, s[i], s[j]) && s[i] != s[j];
      TiesSwap(order, keys, s, i, j);
      assert Swapped(s, i, j)[i] != s[i];
    }
  }

  // ----- pages

  datatype Page<T> = OutOfBounds | SlicePanic | Slice(items: seq<T>)

  /** The effective start and end of a page; a negative offset counts from the end. */
  function StartIndex(total: int, offset: int): int {
    if offset < 0 then total + offset else offset
  }

  function EndIndex(total: int, offset: int, limit: int): int {
    var end := StartIndex(total, offset) + limit;
    if limit == 0 || end > total then total else end
  }

  /** Cutting a page: the slice expression panics when the range is inverted. */
  function Paginate<T>(values: seq<T>, offset: int, limit: int): Page<T> {
    var start, end := StartIndex(|values|, offset), EndIndex(|values|, offset, limit);
    if !(0 <= start <= |values|) then OutOfBounds
    else if !(start <= end) then SlicePanic
    else Slice(values[start..end])
  }

  /** Exactly which requests fail, and that a page is the run of at most `limit` elements from its
      start, or of all the rest when the limit is 0. */
  lemma {:induction false} PageExact<T>(values: seq<T>, offset: int, limit: int)
    ensures var n := |values|;
            var start := if offset < 0 then n + offset else offset;
            && (Paginate(values, offset, limit).OutOfBounds? <==> offset > n || offset < -n)
            && (Paginate(values, offset, limit).SlicePanic? <==> -n <= offset <= n && limit < 0)
            && (forall items :: Paginate(values, offset, limit) == Slice(items) ==>
                  && limit >= 0 && 0 <= start <= n && items <= values[start..]
                  && |items| == (if limit == 0 || limit > n - start then n - start else limit))
  {
  }

  /** The first `n` pages of size `limit`, each cut from its own list. */
  function Pages<T>(lists: seq<seq<T>>, limit: nat, n: nat): seq<T>
    requires n <= |lists|
  {
    if n == 0 then []
    else
      var page := Paginate(lists[n - 1], (n - 1) * limit, limit);
      Pages(lists, limit, n - 1) + (if page.Slice? then page.items else [])
  }

  /** The part of a list that the pages up to position `end` cover. */
  function Upto<T>(list: seq<T>, end: nat): seq<T> {
    if end <= |list| then list[..end] else list
  }

  lemma {:induction false} NextPage<T>(list: seq<T>, start: nat, limit: nat)
    requires limit > 0 && start <= |list|
    ensures Paginate(list, start, limit).Slice?
    ensures Upto(list, start) + Paginate(list, start, limit).items == Upto(list, start + limit)
  {
  }

  lemma {:induction false} PageStarts(n: nat, limit: nat)
    ensures n * limit >= 0
    ensures n > 0 ==> n * limit == (n - 1) * limit + limit
  {
  }

  lemma {:induction false} PagesAreAPrefix<T>(lists: seq<seq<T>>, list: seq<T>, limit: nat, n: nat)
    requires limit > 0 && n <= |lists| && (n > 0 ==> (n - 1) * limit <= |list|)
    requires forall i :: 0 <= i < n ==> lists[i] == list
    ensures n * limit >= 0
    ensures Pages(lists, limit, n) == Upto(list, n * limit)
  {
    PageStarts(n, limit);
    if n > 0 {
      PageStarts(n - 1, limit);
      PagesAreAPrefix(lists, list, limit, n - 1);
      NextPage(list, (n - 1) * limit, limit);
    }
  }

  /** Deterministic paging: although every request sorts afresh with an unstable sort, the pages of a
      walk through an unchanged collection tile one and the same sorted list, without loss or
      repetition. */
  lemma {:induction false} PagesTile(order: OrderBy, keys: seq<int>, lists: seq<seq<Message>>, limit: nat)
    requires limit > 0 && lists != [] && (|lists| - 1) * limit <= |lists[0]|
    requires forall i :: 0 <= i < |lists| ==> multiset(lists[i]) == multiset(lists[0]) && Sorted(order, keys, lists[i])
    requires NoTies(keys, lists[0]) && AllMatching(keys, lists[0])
    ensures |lists| * limit >= 0
    ensures Pages(lists, limit, |lists|) == Upto(lists[0], |lists| * limit)
  {
    forall i | 0 <= i < |lists| ensures lists[i] == lists[0] {
      SortIsDeterministic(order, keys, lists[0], lists[i]);
    }
    PagesAreAPrefix(lists, lists[0], limit, |lists|);
  }

  /** A walk through the whole of `s`: one sorted list per request, enough requests, none too many. */
  predicate Walk(order: OrderBy, keys: seq<int>, s: seq<Message>, lists: seq<seq<Message>>, limit: nat) {
    && limit > 0 && lists != [] && (|lists| - 1) * limit <= |s| <= |lists| * limit
    && forall i :: 0 <= i < |lists| ==> multiset(lists[i]) == multiset(s) && Sorted(order, keys, lists[i])
  }

  /** No walk loses or repeats a message. */
  ghost predicate PagesNeverMix(order: OrderBy, keys: seq<int>, s: seq<Message>) {
    forall lists: seq<seq<Message>>, limit: nat | Walk(order, keys, s, lists, limit) ::
      multiset(Pages(lists, limit, |lists|)) == multiset(s)
  }

  lemma {:induction false} PagesOfOne<T>(lists: seq<seq<T>>, u: seq<T>, n: nat)
    requires n <= |lists| == |u| && forall i :: 0 <= i < |lists| ==> |lists[i]| == |u| && u[i] == lists[i][i]
    ensures Pages(lists, 1, n) == u[..n]
  {
    if n > 0 {
      PagesOfOne(lists, u, n - 1);
      assert (n - 1) * 1 == n - 1;
      assert Paginate(lists[n - 1], n - 1, 1) == Slice(lists[n - 1][n - 1..n]);
    }
  }

  /** One request per message: the first `i + 1` see the list one way, the others the other way. */
  function Mixed<T>(s: seq<T>, t: seq<T>, i: nat): (lists: seq<seq<T>>)
    ensures |lists| == |s|
  {
    seq(|s|, p requires 0 <= p < |s| => if p <= i then s else t)
  }

  lemma {:induction false} MixedPages<T>(s: seq<T>, i: nat, j: nat)
    requires i < j < |s|
    ensures Pages(Mixed(s, Swapped(s, i, j), i), 1, |s|) == s[j := s[i]]
  {
    var u := s[j := s[i]];
    PagesOfOne(Mixed(s, Swapped(s, i, j), i), u, |s|);
    assert u[..|s|] == u;
  }

  lemma {:induction false} MixedIsWalk(order: OrderBy, keys: seq<int>, s: seq<Message>, t: seq<Message>, i: nat)
    requires s != [] && Sorted(order, keys, s) && Sorted(order, keys, t) && multiset(t) == multiset(s)
    ensures Walk(order, keys, s, Mixed(s, t, i), 1)
  {
    var n := |s|;
    assert n * 1 == n && (n - 1) * 1 == n - 1;
  }

  lemma {:induction false} ReplacedDiffers<T>(s: seq<T>, i: nat, j: nat)
    requires i < j < |s| && s[i] != s[j]
    ensures multiset(s[j := s[i]]) != multiset(s)
  {
    assert multiset(s[j := s[i]])[s[i]] == multiset(s)[s[i]] + 1;
  }

  /** If two different messages tie, requests that order them differently show one twice. */
  lemma {:induction false} TiesMixPages(order: OrderBy, keys: seq<int>, s: seq<Message>, i: nat, j: nat)
    requires i < j < |s| && AllMatching(keys, s) && Sorted(order, keys, s) && SameKeys(keys, s[i], s[j]) && s[i] != s[j]
    ensures Walk(order, keys, s, Mixed(s, Swapped(s, i, j), i), 1)
    ensures multiset(Pages(Mixed(s, Swapped(s, i, j), i), 1, |s|)) != multiset(s)
  {
    TiesSwap(order, keys, s, i, j);
    MixedPages(s, i, j);
    MixedIsWalk(order, keys, s, Swapped(s, i, j), i);
    ReplacedDiffers(s, i, j);
  }

  lemma {:induction false} WalkCovers(order: OrderBy, keys: seq<int>, s: seq<Message>, lists: seq<seq<Message>>, limit: nat)
    requires AllMatching(keys, s) && Sorted(order, keys, s) && NoTies(keys, s) && Walk(order, keys, s, lists, limit)
    ensures Pages(lists, limit, |lists|) == s
  {
    SortIsDeterministic(order, keys, s, lists[0]);
    PagesTile(order, keys, lists, limit);
  }

  /** Exactly when paging is safe: pages of separately sorted requests lose and repeat nothing if and
      only if no two different messages agree on every key. */
  lemma {:induction false} PagesExactly(order: OrderBy, keys: seq<int>, s: seq<Message>)
    requires AllMatching(keys, s) && Sorted(order, keys, s)
    ensures PagesNeverMix(order, keys, s) <==> NoTies(keys, s)
  {
    if NoTies(keys, s) {
      forall lists: seq<seq<Message>>, limit: nat | Walk(order, keys, s, lists, limit)
        ensures multiset(Pages(lists, limit, |lists|)) == multiset(s)
      {
        WalkCovers(order, keys, s, lists, limit);
      }
    } else {
      var i, j :| 0 <= i < j < |s| && SameKeys(keys, s[i], s[j]) && s[i] != s[j];
      TiesMixPages(order, keys, s, i, j);
    }
  }
}
