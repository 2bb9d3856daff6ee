/** What order the comparator puts lists in: the direction of every kind, and which key decides. */
module ListDirection {
  import opened Wrappers
  import opened ListOrder

  /** Lexicographic order: at the first difference the smaller character, or the end of the string. */
  predicate LexBelow(a: string, b: string) {
    exists n :: 0 <= n <= |a| && n <= |b| && a[..n] == b[..n]
                && ((n == |a| && n < |b|) || (n < |a| && n < |b| && a[n] < b[n]))
  }

  predicate FloatBelow(a: Float, b: Float) {
    match (a, b)
    case (NegInf, Num(_)) => true
    case (NegInf, PosInf) => true
    case (Num(x), Num(y)) => x < y
    case (Num(_), PosInf) => true
    case _ => false
  }

  predicate TimeBelow(a: Option<Timestamp>, b: Option<Timestamp>) {
    match (a, b)
    case (None, Some(_)) => true
    case (Some(x), Some(y)) => x.seconds < y.seconds || (x.seconds == y.seconds && x.nanos < y.nanos)
    case _ => false
  }

  /** `x` comes before `y` in ascending order: true before false, numbers and enums by size, strings
      lexicographically, unset timestamps first and then by seconds and nanoseconds. */
  predicate Below(x: Field, y: Field) {
    match (x, y)
    case (BoolField(a), BoolField(b)) => a && !b
    case (EnumField(a), EnumField(b)) => a < b
    case (IntField(a), IntField(b)) => a < b
    case (UintField(a), UintField(b)) => a < b
    case (FloatField(a), FloatField(b)) => FloatBelow(a, b)
    case (StringField(a), StringField(b)) => LexBelow(a, b)
    case (TimeField(a), TimeField(b)) => TimeBelow(a, b)
    case _ => false
  }

  lemma {:induction false} LexStep(a: string, b: string)
    requires a != [] && b != [] && a[0] == b[0]
    ensures LexBelow(a, b) <==> LexBelow(a[1..], b[1..])
  {
    if n :| 0 <= n <= |a| && n <= |b| && a[..n] == b[..n] &&
            ((n == |a| && n < |b|) || (n < |a| && n < |b| && a[n] < b[n])) {
      assert n > 0;
      assert a[1..][..n - 1] == a[..n][1..] && b[1..][..n - 1] == b[..n][1..];
      assert LexBelow(a[1..], b[1..]);
    }
    if n :| 0 <= n <= |a[1..]| && n <= |b[1..]| && a[1..][..n] == b[1..][..n] &&
            ((n == |a[1..]| && n < |b[1..]|) || (n < |a[1..]| && n < |b[1..]| && a[1..][n] < b[1..][n])) {
      assert a[..n + 1] == [a[0]] + a[1..][..n] && b[..n + 1] == [b[0]] + b[1..][..n];
      assert LexBelow(a, b);
    }
  }

  lemma {:induction false} PrefixHead(a: string, b: string, n: nat)
    requires 0 < n <= |a| && n <= |b| && a[..n] == b[..n]
    ensures a[0] == b[0]
  {
    assert a[..n][0] == a[0] && b[..n][0] == b[0];
  }

  lemma {:induction false} LexHead(a: string, b: string)
    requires a != [] && b != []
    ensures LexBelow(a, b) ==> a[0] <= b[0]
    ensures a[0] < b[0] ==> LexBelow(a, b)
  {
    assert a[..0] == b[..0];
    if n :| 0 <= n <= |a| && n <= |b| && a[..n] == b[..n] &&
            ((n == |a| && n < |b|) || (n < |a| && n < |b| && a[n] < b[n])) {
      if n > 0 { PrefixHead(a, b, n); }
    }
  }

  lemma {:induction false} StringDirection(a: string, b: string)
    ensures StringLess(a, b) <==> LexBelow(a, b)
  {
    if a == [] {
      assert a[..0] == b[..0];
    } else if b != [] {
      LexHead(a, b);
      if a[0] == b[0] {
        LexStep(a, b);
        StringDirection(a[1..], b[1..]);
      }
    }
  }

  /** The verdict on one field: a tie for equal values, otherwise whether the first is below the second;
      it panics on a field of no supported kind.  NaN is above nothing, below nothing, and not even
      equal to itself. */
  lemma {:induction false} FieldExactly(x: Field, y: Field)
    requires SameKind(x, y)
    ensures CompareFields(x, y) ==
            if x.Unsupported? then Panic
            else if x == y && x != FloatField(NaN) then Tie
            else Answer(Below(x, y))
  {
    if x.StringField? { StringDirection(x.s, y.s); }
  }

  /** The two messages agree on this key, which therefore does not decide. */
  predicate Agrees(a: Message, b: Message, k: int) {
    k == 0 || (k in a && k in b && a[k] == b[k] && Comparable(a[k]))
  }

  /** Key number `i` is the first that decides. */
  predicate Decides(keys: seq<int>, a: Message, b: Message, i: nat) {
    i < |keys| && !Agrees(a, b, keys[i]) && forall j :: 0 <= j < i ==> Agrees(a, b, keys[j])
  }

  /** The fields of a message type: a key is in both messages or in neither, with one kind. */
  predicate OneType(keys: seq<int>, a: Message, b: Message) {
    forall k :: k in keys && k != 0 ==> (k in a <==> k in b) && (k in a ==> SameKind(a[k], b[k]))
  }

  /** The verdict at the deciding key. */
  function Decision(a: Message, b: Message, k: int): Verdict {
    if k !in a || k !in b || a[k].Unsupported? then Panic else Answer(Below(a[k], b[k]))
  }

  /** The first key on which two messages differ decides, in the direction of its kind; if there is
      none, neither is before the other. */
  lemma {:induction false} FirstDifferenceDecides(keys: seq<int>, a: Message, b: Message, i: nat)
    requires OneType(keys, a, b)
    ensures Decides(keys, a, b, i) ==> Compare(keys, a, b) == Decision(a, b, keys[i])
    ensures (forall j :: 0 <= j < |keys| ==> Agrees(a, b, keys[j])) ==> Compare(keys, a, b) == Answer(false)
  {
    if keys != [] {
      var k, rest := keys[0], keys[1..];
      assert keys == [k] + rest && OneType(rest, a, b);
      if k != 0 && k in a && k in b { FieldExactly(a[k], b[k]); }
      if Agrees(a, b, k) {
        if Decides(keys, a, b, i) { assert i > 0 && Decides(rest, a, b, i - 1); }
        FirstDifferenceDecides(rest, a, b, if i > 0 then i - 1 else 0);
        assert (forall j :: 0 <= j < |keys| ==> Agrees(a, b, keys[j])) ==> forall j :: 0 <= j < |rest| ==> Agrees(a, b, rest[j]);
      } else if Decides(keys, a, b, i) {
        assert i == 0;
      }
    }
  }

  /** The closure that the sort calls, exactly: what the first deciding key says, with the messages
      exchanged when the order is descending. */
  lemma {:induction false} LessExactly(order: OrderBy, keys: seq<int>, a: Message, b: Message, i: nat)
    requires OneType(keys, a, b) && Decides(keys, a, b, i)
    ensures Less(order, keys, a, b) == if order == Desc then Decision(b, a, keys[i]) else Decision(a, b, keys[i])
  {
    FirstDifferenceDecides(keys, a, b, i);
    assert OneType(keys, b, a) && Decides(keys, b, a, i);
    FirstDifferenceDecides(keys, b, a, i);
  }

  /** `x` is not after `y` in ascending order. */
  predicate NotAfter(x: Field, y: Field) {
    match (x, y)
    case (BoolField(a), BoolField(b)) => b ==> a
    case (EnumField(a), EnumField(b)) => a <= b
    case (IntField(a), IntField(b)) => a <= b
    case (UintField(a), UintField(b)) => a <= b
    case (FloatField(a), FloatField(b)) => a == b || FloatBelow(a, b)
    case (StringField(a), StringField(b)) => a == b || LexBelow(a, b)
    case (TimeField(a), TimeField(b)) => a == b || TimeBelow(a, b)
    case _ => false
  }

  lemma {:induction false} OneKey(order: OrderBy, k: int, a: Message, b: Message)
    requires k != 0 && Matching([k], a, b)
    ensures k in a && k in b && (!Before(order, [k], a, b) <==> if order == Desc then NotAfter(a[k], b[k]) else NotAfter(b[k], a[k]))
  {
    assert k in [k];
    FieldExactly(a[k], b[k]);
    FieldExactly(b[k], a[k]);
    FieldTrichotomy(a[k], b[k]);
    if a[k] == b[k] {
      FirstDifferenceDecides([k], a, b, 0);
      FirstDifferenceDecides([k], b, a, 0);
    } else {
      assert Decides([k], a, b, 0);
      LessExactly(order, [k], a, b, 0);
    }
  }

  /** A list sorted by one key: the values never go down in ascending order, and never up in
      descending order. */
  lemma {:induction false} SortedDirection(order: OrderBy, k: int, s: seq<Message>)
    requires k != 0 && AllMatching([k], s)
    ensures Sorted(order, [k], s) <==>
            forall i, j :: 0 <= i < j < |s| ==>
              k in s[i] && k in s[j] && if order == Desc then NotAfter(s[j][k], s[i][k]) else NotAfter(s[i][k], s[j][k])
  {
    forall i, j | 0 <= i < j < |s|
      ensures k in s[i] && k in s[j]
      ensures !Before(order, [k], s[j], s[i]) <==>
              if order == Desc then NotAfter(s[j][k], s[i][k]) else NotAfter(s[i][k], s[j][k])
    {
      OneKey(order, k, s[j], s[i]);
    }
  }
}
