/** Counting which workers' contributions a gather has taken: the messages carry no sender, so the
    correspondence between messages and workers is kept as a multiset over the marked workers. */
module Tally {

  /** The values at the marked positions below `n`. */
  function MarkedBelow<T>(marks: seq<bool>, values: seq<T>, n: nat): multiset<T>
    requires n <= |marks| == |values|
  {
    if n == 0 then multiset{}
    else MarkedBelow(marks, values, n - 1) + (if marks[n - 1] then multiset{values[n - 1]} else multiset{})
  }

  function Marked<T>(marks: seq<bool>, values: seq<T>): multiset<T>
    requires |marks| == |values|
  {
    MarkedBelow(marks, values, |marks|)
  }

  lemma {:induction false} SwapTerms<T>(a: multiset<T>, b: multiset<T>, c: multiset<T>)
    ensures a + b + c == a + c + b
  {
  }

  lemma {:induction false} MarkElsewhere<T>(marks: seq<bool>, values: seq<T>, w: nat, n: nat)
    requires w < |marks| == |values| && n <= w
    ensures MarkedBelow(marks[w := true], values, n) == MarkedBelow(marks, values, n)
  {
    if n > 0 { MarkElsewhere(marks, values, w, n - 1); }
  }

  lemma {:induction false} MarkOneBelow<T>(marks: seq<bool>, values: seq<T>, w: nat, n: nat)
    requires w < n <= |marks| == |values| && !marks[w]
    ensures MarkedBelow(marks[w := true], values, n) == MarkedBelow(marks, values, n) + multiset{values[w]}
  {
    var rest := MarkedBelow(marks, values, n - 1);
    if w == n - 1 {
      MarkElsewhere(marks, values, w, n - 1);
      assert rest + multiset{} == rest;
    } else {
      MarkOneBelow(marks, values, w, n - 1);
      SwapTerms(rest, multiset{values[w]}, if marks[n - 1] then multiset{values[n - 1]} else multiset{});
    }
  }

  lemma {:induction false} MarkOne<T>(marks: seq<bool>, values: seq<T>, w: nat)
    requires |marks| == |values| && w < |marks| && !marks[w]
    ensures Marked(marks[w := true], values) == Marked(marks, values) + multiset{values[w]}
  {
    MarkOneBelow(marks, values, w, |marks|);
  }

  lemma {:induction false} MarkedNoneBelow<T>(marks: seq<bool>, values: seq<T>, n: nat)
    requires n <= |marks| == |values| && forall i :: 0 <= i < n ==> !marks[i]
    ensures MarkedBelow(marks, values, n) == multiset{}
  {
    if n > 0 { MarkedNoneBelow(marks, values, n - 1); }
  }

  lemma {:induction false} MarkedNone<T>(marks: seq<bool>, values: seq<T>)
    requires |marks| == |values|
    requires forall i :: 0 <= i < |marks| ==> !marks[i]
    ensures Marked(marks, values) == multiset{}
  {
    MarkedNoneBelow(marks, values, |marks|);
  }

  lemma {:induction false} MarkedSize<T>(marks: seq<bool>, values: seq<T>, n: nat)
    requires n <= |marks| == |values|
    ensures |MarkedBelow(marks, values, n)| <= n
    ensures |MarkedBelow(marks, values, n)| == n <==> forall i :: 0 <= i < n ==> marks[i]
  {
    if n > 0 { MarkedSize(marks, values, n - 1); }
  }

  lemma {:induction false} MarkedAll<T>(marks: seq<bool>, values: seq<T>, n: nat)
    requires n <= |marks| == |values| && forall i :: 0 <= i < n ==> marks[i]
    ensures MarkedBelow(marks, values, n) == multiset(values[..n])
  {
    if n > 0 {
      MarkedAll(marks, values, n - 1);
      assert values[..n] == values[..n - 1] + [values[n - 1]];
    }
  }

  /** Pigeonhole: as many values as workers means one from every worker. */
  lemma {:induction false} MarkedFull<T>(marks: seq<bool>, values: seq<T>)
    requires |marks| == |values|
    ensures |Marked(marks, values)| <= |marks|
    ensures |Marked(marks, values)| == |marks| <==> forall i :: 0 <= i < |marks| ==> marks[i]
    ensures |Marked(marks, values)| == |marks| ==> Marked(marks, values) == multiset(values)
  {
    MarkedSize(marks, values, |marks|);
    if forall i :: 0 <= i < |marks| ==> marks[i] {
      MarkedAll(marks, values, |marks|);
      assert values[..|marks|] == values;
    }
  }
}
