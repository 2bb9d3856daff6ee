/** The ring buffer that keeps the most recent Fluent Bit log lines. */
module FluentRing {
  import opened Wrappers

  /** Positions less than a capacity apart use different slots. */
  lemma {:induction false} DistinctSlots(i: nat, j: nat, capacity: nat)
    requires i < j < i + capacity
    ensures i % capacity != j % capacity
  {
    var a, b := i / capacity, j / capacity;
    assert i == a * capacity + i % capacity && j == b * capacity + j % capacity;
    NotAMultiple(b - a, capacity, j - i);
    assert (b - a) * capacity == b * capacity - a * capacity;
  }

  lemma {:induction false} NotAMultiple(k: int, c: nat, d: int)
    requires 0 < d < c
    ensures k * c != d
  {
    if k >= 1 {
      assert k * c == (k - 1) * c + c && (k - 1) * c >= 0;
    } else {
      assert k * c <= 0;
    }
  }

  class Ring {
    const logs: array<Option<string>>
    var count: nat
    ghost var history: seq<string>

    ghost predicate Valid()
      reads this, logs
    {
      && logs.Length > 0 && count == |history|
      && forall i :: 0 <= i < |history| && |history| - logs.Length <= i ==> logs[i % logs.Length] == Some(history[i])
    }

    constructor (capacity: nat)
      requires capacity > 0
      ensures Valid() && history == [] && logs.Length == capacity && fresh(logs)
    {
      logs := new Option<string>[capacity](_ => None);
      count, history := 0, [];
    }

    method Receive(line: Option<string>)
      requires Valid()
      modifies this, logs
      ensures Valid() && history == (if line.None? then old(history) else old(history) + [line.value])
    {
      if line == None { return; }
      logs[count % logs.Length] := line;
      ghost var n := count;
      count := count + 1;
      history := history + [line.value];
      forall i | 0 <= i < n && |history| - logs.Length <= i ensures i % logs.Length != n % logs.Length {
        DistinctSlots(i, n, logs.Length);
      }
    }

    /** The dump is exactly the most recent lines in arrival order; no unset slot is ever read. */
    method Dump() returns (lines: seq<string>)
      requires Valid()
      ensures |lines| == if |history| < logs.Length then |history| else logs.Length
      ensures lines == history[|history| - |lines|..]
    {
      lines := [];
      var i0 := count - logs.Length;
      if i0 < 0 { i0 := 0; }
      for i := i0 to count
        invariant lines == history[i0..i]
      {
        lines := lines + [logs[i % logs.Length].value];
      }
    }
  }
}
