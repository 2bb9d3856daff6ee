/** Transposing per-batch metrics between a list of dicts and a dict of lists. */
module Metrics {
  import opened Wrappers

  type Row<V> = map<string, V>

  function AllKeys<V>(rows: seq<Row<V>>): set<string> {
    if rows == [] then {} else AllKeys(rows[..|rows| - 1]) + rows[|rows| - 1].Keys
  }

  /** The values of one metric, in order, over the batches that have it. */
  function Column<V>(rows: seq<Row<V>>, key: string): seq<V> {
    if rows == [] then []
    else
      var n := |rows| - 1;
      Column(rows[..n], key) + (if key in rows[n] then [rows[n][key]] else [])
  }

  function Columns<V>(rows: seq<Row<V>>): map<string, seq<V>> {
    map key | key in AllKeys(rows) :: Column(rows, key)
  }

  function RowAt<V>(cols: map<string, seq<V>>, i: nat): Row<V>
    requires forall key :: key in cols ==> i < |cols[key]|
  {
    map key | key in cols :: cols[key][i]
  }

  predicate Rectangular<V>(cols: map<string, seq<V>>, n: nat) {
    forall key :: key in cols ==> |cols[key]| == n
  }

  function Rows<V>(cols: map<string, seq<V>>, n: nat): seq<Row<V>>
    requires Rectangular(cols, n)
  {
    seq(n, i requires 0 <= i < n => RowAt(cols, i))
  }

  /** The inner loop: one batch's values appended, metric by metric. */
  method AddRow<V>(ghost rows: seq<Row<V>>, before: map<string, seq<V>>, row: Row<V>) returns (d: map<string, seq<V>>)
    requires before == Columns(rows)
    ensures d == Columns(rows + [row])
  {
    d := before;
    assert (rows + [row])[..|rows|] == rows;
    var left := row.Keys;
    while left != {}
      invariant left <= row.Keys && d.Keys == before.Keys + (row.Keys - left)
      invariant forall key :: key in d ==>
                  d[key] == Column(rows, key) + (if key in row.Keys - left then [row[key]] else [])
      decreases left
    {
      var key :| key in left;
      left := left - {key};
      if key !in before { ColumnAbsent(rows, key); }
      d := d[key := (if key in d then d[key] else []) + [row[key]]];
    }
  }

  /** The defaultdict filled value by value. */
  method ListToDict<V>(rows: seq<Row<V>>) returns (d: map<string, seq<V>>)
    ensures d == Columns(rows)
  {
    d := map[];
    for n := 0 to |rows|
      invariant d == Columns(rows[..n])
    {
      d := AddRow(rows[..n], d, rows[n]);
      assert rows[..n] + [rows[n]] == rows[..n + 1];
    }
    assert rows[..|rows|] == rows;
  }

  lemma {:induction false} ColumnAbsent<V>(rows: seq<Row<V>>, key: string)
    ensures key !in AllKeys(rows) ==> Column(rows, key) == []
  {
    if rows != [] { ColumnAbsent(rows[..|rows| - 1], key); }
  }

  /** `None` is the raised exception: no list to measure, or lists of different lengths. */
  method DictToList<V>(cols: map<string, seq<V>>) returns (r: Option<seq<Row<V>>>)
    ensures r.Some? <==> exists key :: key in cols && Rectangular(cols, |cols[key]|)
    ensures r.Some? ==> Rectangular(cols, |r.value|) && r.value == Rows(cols, |r.value|)
  {
    if cols == map[] { return None; }
    var first :| first in cols.Keys;
    var n := |cols[first]|;
    if exists key :: key in cols && |cols[key]| != n { return None; }
    assert Rectangular(cols, n);
    var rows: seq<Row<V>> := [];
    for i := 0 to n
      invariant rows == Rows(cols, n)[..i]
    {
      rows := rows + [map key | key in cols :: cols[key][i]];
    }
    r := Some(rows);
  }

  predicate SameKeys<V>(rows: seq<Row<V>>) {
    forall i, j :: 0 <= i < |rows| && 0 <= j < |rows| ==> rows[i].Keys == rows[j].Keys
  }

  lemma {:induction false} AllKeysContain<V>(rows: seq<Row<V>>, i: nat)
    requires i < |rows|
    ensures rows[i].Keys <= AllKeys(rows)
  {
    if i < |rows| - 1 { AllKeysContain(rows[..|rows| - 1], i); }
  }

  lemma {:induction false} AllKeysOfSame<V>(rows: seq<Row<V>>, keys: set<string>)
    requires forall i :: 0 <= i < |rows| ==> rows[i].Keys == keys
    ensures AllKeys(rows) == if rows == [] then {} else keys
  {
    if |rows| > 1 { AllKeysOfSame(rows[..|rows| - 1], keys); }
  }

  /** Columns of rows in a row: each metric's values of the first rows, then those of the others,
      whichever rows lack it. */
  lemma {:induction false} ColumnConcat<V>(a: seq<Row<V>>, b: seq<Row<V>>, key: string)
    ensures Column(a + b, key) == Column(a, key) + Column(b, key)
  {
    if b == [] {
      assert a + b == a;
    } else {
      var rest := b[..|b| - 1];
      assert (a + b)[..|a + b| - 1] == a + rest;
      ColumnConcat(a, rest, key);
    }
  }

  lemma {:induction false} ColumnOfOne<V>(row: Row<V>, key: string)
    ensures Column([row], key) == if key in row then [row[key]] else []
  {
    assert [row][..0] == [];
  }

  /** Validation accepts exactly the lists whose dicts all have one key set. */
  method ValidateBatchMetrics<V>(rows: seq<Row<V>>) returns (ok: bool)
    ensures ok <==> SameKeys(rows)
  {
    var d := ListToDict(rows);
    if rows != [] && SameKeys(rows) { AllKeysOfSame(rows, rows[0].Keys); }
    for i := 0 to |rows|
      invariant forall j :: 0 <= j < i ==> rows[j].Keys == d.Keys
    {
      if d.Keys != rows[i].Keys { return false; }
    }
    ok := true;
  }

  lemma {:induction false} ColumnFull<V>(rows: seq<Row<V>>, key: string)
    requires forall i :: 0 <= i < |rows| ==> key in rows[i]
    ensures |Column(rows, key)| == |rows|
    ensures forall i :: 0 <= i < |rows| ==> Column(rows, key)[i] == rows[i][key]
  {
    if rows != [] { ColumnFull(rows[..|rows| - 1], key); }
  }

  lemma {:induction false} SameKeysRecovered<V>(rows: seq<Row<V>>)
    requires rows != [] && SameKeys(rows)
    ensures Rectangular(Columns(rows), |rows|) && Rows(Columns(rows), |rows|) == rows
    ensures Columns(rows).Keys == rows[0].Keys
  {
    var cols := Columns(rows);
    AllKeysOfSame(rows, rows[0].Keys);
    forall key | key in cols
      ensures |cols[key]| == |rows| && forall i :: 0 <= i < |rows| ==> cols[key][i] == rows[i][key]
    {
      ColumnFull(rows, key);
    }
    forall i | 0 <= i < |rows| ensures RowAt(cols, i) == rows[i] {}
  }

  lemma {:induction false} RecoveredSameKeys<V>(rows: seq<Row<V>>, n: nat)
    requires Columns(rows) != map[] && Rectangular(Columns(rows), n) && Rows(Columns(rows), n) == rows
    ensures |rows| == n && n > 0 && SameKeys(rows) && rows[0].Keys != {}
  {
    assert rows == [] ==> AllKeys(rows) == {};
    assert forall i :: 0 <= i < n ==> rows[i].Keys == Columns(rows).Keys;
  }

  /** Columns and back: the rows are recovered exactly when there is at least one row and all rows
      share one nonempty key set. */
  lemma {:induction false} RowsOfColumns<V>(rows: seq<Row<V>>, n: nat)
    ensures (Columns(rows) != map[] && Rectangular(Columns(rows), n) && Rows(Columns(rows), n) == rows) <==>
            (|rows| == n && n > 0 && SameKeys(rows) && rows[0].Keys != {})
  {
    if |rows| == n && n > 0 && SameKeys(rows) && rows[0].Keys != {} { SameKeysRecovered(rows); }
    if Columns(rows) != map[] && Rectangular(Columns(rows), n) && Rows(Columns(rows), n) == rows {
      RecoveredSameKeys(rows, n);
    }
  }

  lemma {:induction false} ColumnOfRows<V>(cols: map<string, seq<V>>, n: nat, m: nat, key: string)
    requires Rectangular(cols, n) && m <= n && key in cols
    ensures Column(Rows(cols, n)[..m], key) == cols[key][..m]
  {
    if m > 0 {
      ColumnOfRows(cols, n, m - 1, key);
      assert Rows(cols, n)[..m][..m - 1] == Rows(cols, n)[..m - 1];
    }
  }

  /** Rows and back: the columns are recovered exactly when there are no columns or they have
      positive length. */
  lemma {:induction false} ColumnsOfRows<V>(cols: map<string, seq<V>>, n: nat)
    requires Rectangular(cols, n)
    ensures Columns(Rows(cols, n)) == cols <==> cols == map[] || n > 0
  {
    var rows := Rows(cols, n);
    assert forall i :: 0 <= i < |rows| ==> rows[i].Keys == cols.Keys;
    AllKeysOfSame(rows, cols.Keys);
    assert rows[..n] == rows;
    if n > 0 {
      forall key | key in cols ensures Column(rows, key) == cols[key] {
        ColumnOfRows(cols, n, n, key);
        assert cols[key][..n] == cols[key];
      }
      assert Columns(rows) == cols;
    } else {
      assert Columns(rows).Keys == {};
      assert cols == map[] <==> cols.Keys == {};
    }
  }
}
