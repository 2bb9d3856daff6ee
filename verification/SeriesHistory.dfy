/** A trial's metric series as the stream sees it round after round, and which of its points are
    sent.  A series is ordered by batches but resumed by end time; points may be stored late, and a
    rollback deletes points that were already sent.  Nothing is assumed about either. */
module SeriesHistory {
  import opened Wrappers
  import opened TrialsSample

  // ----- one series

  predicate Positive(series: seq<Point>) {
    forall i :: 0 <= i < |series| ==> series[i].time > 0
  }

  lemma {:induction false} QuerySnoc(series: seq<Point>, last: Point, start: int)
    ensures Query(series + [last], start) == Query(series, start) + (if last.time > start then [last] else [])
  {
    assert (series + [last])[..|series|] == series;
  }

  /** A query keeps the order of the series. */
  lemma {:induction false} QueryConcat(a: seq<Point>, b: seq<Point>, start: int)
    ensures Query(a + b, start) == Query(a, start) + Query(b, start)
    decreases |b|
  {
    if b == [] {
      assert a + b == a;
    } else {
      var rest, last := b[..|b| - 1], b[|b| - 1];
      assert a + b == (a + rest) + [last] && b == rest + [last];
      QuerySnoc(a + rest, last, start);
      QueryConcat(a, rest, start);
      QuerySnoc(rest, last, start);
    }
  }

  lemma {:induction false} SnocCount(q: seq<Point>, last: Point, p: Point)
    ensures multiset(q + [last])[p] == multiset(q)[p] + (if last == p then 1 else 0)
  {
  }

  /** How often a query returns a point. */
  predicate Filters(series: seq<Point>, start: int, p: Point) {
    multiset(Query(series, start))[p] == if p.time > start then multiset(series)[p] else 0
  }

  lemma {:induction false} FiltersNext(rest: seq<Point>, last: Point, start: int, p: Point)
    requires Filters(rest, start, p)
    ensures Filters(rest + [last], start, p)
  {
    QuerySnoc(rest, last, start);
    SnocCount(rest, last, p);
    if last.time > start {
      SnocCount(Query(rest, start), last, p);
    } else {
      assert Query(rest, start) + [] == Query(rest, start);
    }
  }

  /** A query filters the series: it keeps every copy of a point that ended after the cursor. */
  lemma {:induction false} QueryCounts(series: seq<Point>, start: int, p: Point)
    ensures Filters(series, start, p)
    decreases |series|
  {
    if series != [] {
      var rest, last := series[..|series| - 1], series[|series| - 1];
      assert series == rest + [last];
      QueryCounts(rest, start, p);
      FiltersNext(rest, last, start, p);
    }
  }

  lemma {:induction false} QueryNone(series: seq<Point>, start: int)
    requires forall p :: p in series ==> p.time <= start
    ensures Query(series, start) == []
    decreases |series|
  {
    if series != [] {
      var rest, last := series[..|series| - 1], series[|series| - 1];
      assert series == rest + [last];
      QueryNone(rest, start);
      QuerySnoc(rest, last, start);
    }
  }

  /** A query from between two parts of a series returns the second. */
  lemma {:induction false} QueryRest(before: seq<Point>, after: seq<Point>, start: int)
    requires forall p :: p in before ==> p.time <= start
    requires forall p :: p in after ==> p.time > start
    ensures Query(before + after, start) == after
    decreases |after|
  {
    if after == [] {
      QueryNone(before, start);
      assert before + after == before;
    } else {
      var rest, last := after[..|after| - 1], after[|after| - 1];
      assert after == rest + [last];
      QueryRest(before, rest, start);
      QuerySnoc(before + rest, last, start);
      assert before + after == (before + rest) + [last];
    }
  }

  lemma {:induction false} LatestBounds(series: seq<Point>)
    ensures Latest(series) >= 0
    ensures forall p :: p in series ==> p.time <= Latest(series)
  {
    if series != [] {
      var n := |series| - 1;
      LatestBounds(series[..n]);
      assert series == series[..n] + [series[n]];
    }
  }

  lemma {:induction false} LatestLeast(series: seq<Point>, bound: int)
    requires bound >= 0 && forall p :: p in series ==> p.time <= bound
    ensures Latest(series) <= bound
  {
    if series != [] {
      var n := |series| - 1;
      assert series == series[..n] + [series[n]];
      LatestLeast(series[..n], bound);
    }
  }

  /** A query returns a stored point if and only if it ended after the cursor. */
  lemma {:induction false} QueryMembers(series: seq<Point>, start: int, p: Point)
    ensures p in Query(series, start) <==> p in series && p.time > start
  {
    QueryCounts(series, start, p);
    assert p in Query(series, start) <==> p in multiset(Query(series, start));
    assert p in series <==> p in multiset(series);
  }

  // ----- one fetch

  function Max(a: int, b: int): int {
    if a > b then a else b
  }

  /** The cursor after a fetch: it never moves back. */
  function After(cursor: Option<int>, series: seq<Point>): Option<int> {
    if cursor.Some? then Some(Max(cursor.value, Latest(series)))
    else if series == [] then None
    else Some(Latest(series))
  }

  /** What a fetch sends: everything, down-sampled, or what ended after the cursor. */
  function NewData(cursor: Option<int>, series: seq<Point>, down: Sampler): seq<Point> {
    if cursor.Some? then Query(series, cursor.value) else down(series)
  }

  predicate CursorOk(cursor: Option<int>) {
    cursor.Some? ==> cursor.value >= 0
  }

  /** The latest of what a query returns is the latest of all, if it returns anything. */
  lemma {:induction false} LatestOfQuery(series: seq<Point>, start: int)
    requires start >= 0
    ensures var got := Query(series, start);
            Max(start, Latest(series)) == if got != [] then Latest(got) else start
  {
    var got := Query(series, start);
    LatestBounds(got);
    LatestBounds(series);
    forall p | p in series ensures p.time <= start || p in got { QueryMembers(series, start, p); }
    if got == [] {
      LatestLeast(series, start);
    } else {
      QueryMembers(series, start, got[0]);
      LatestLeast(series, Latest(got));
      forall p | p in got ensures p.time <= Latest(series) { QueryMembers(series, start, p); }
      LatestLeast(got, Latest(series));
    }
  }

  /** One fetch, whatever was stored or deleted since the last one. */
  lemma {:induction false} FetchExactly(cursor: Option<int>, series: seq<Point>, down: Sampler)
    requires CursorOk(cursor) && Positive(series)
    ensures FetchSeries(cursor, series, down) == Batch(After(cursor, series), NewData(cursor, series, down))
    ensures CursorOk(After(cursor, series))
  {
    LatestBounds(series);
    if cursor.None? {
      QueryRest([], series, 0);
      assert [] + series == series;
    } else {
      LatestOfQuery(series, cursor.value);
    }
  }

  /** Fetching the same series again sends nothing. */
  lemma {:induction false} FetchAgain(cursor: Option<int>, series: seq<Point>, down: Sampler)
    requires down([]) == []
    ensures After(After(cursor, series), series) == After(cursor, series)
    ensures NewData(After(cursor, series), series, down) == []
  {
    LatestBounds(series);
    if cursor.Some? || series != [] { QueryNone(series, After(cursor, series).value); }
  }

  // ----- histories

  type History = seq<seq<Point>>

  function Last(h: History): seq<Point> {
    if h == [] then [] else h[|h| - 1]
  }

  /** The first nonempty series. */
  function First(h: History): seq<Point> {
    if h == [] then []
    else
      var f := First(h[..|h| - 1]);
      if f != [] then f else h[|h| - 1]
  }

  /** The latest end time of any point seen so far, deleted ones included. */
  function Peak(h: History): int {
    if h == [] then 0 else Max(Peak(h[..|h| - 1]), Latest(h[|h| - 1]))
  }

  function Cursor(h: History): Option<int> {
    if First(h) == [] then None else Some(Peak(h))
  }

  /** What the last round adds to the first batch: the points that ended after everything seen. */
  function Added(h: History): seq<Point>
    requires h != []
  {
    var prefix := h[..|h| - 1];
    if First(prefix) == [] then [] else Query(h[|h| - 1], Peak(prefix))
  }

  /** The batches that follow the first nonempty one. */
  function Later(h: History): seq<Point> {
    if h == [] then [] else Later(h[..|h| - 1]) + Added(h)
  }

  /** Before the first nonempty series there is nothing at all. */
  lemma {:induction false} NotStarted(h: History)
    requires First(h) == []
    ensures Last(h) == [] && Peak(h) == 0 && Later(h) == []
    ensures forall k :: 0 <= k < |h| ==> h[k] == []
  {
    if h != [] {
      var prefix := h[..|h| - 1];
      NotStarted(prefix);
      assert forall k :: 0 <= k < |prefix| ==> prefix[k] == h[k];
    }
  }

  lemma {:induction false} PeakBounds(h: History)
    ensures Peak(h) >= 0 && Latest(Last(h)) <= Peak(h)
    ensures h != [] ==> Peak(h[..|h| - 1]) <= Peak(h)
  {
    if h != [] {
      PeakBounds(h[..|h| - 1]);
      LatestBounds(Last(h));
    }
  }

  /** The cursor is the running maximum, and each fetch moves it there. */
  lemma {:induction false} CursorNext(h: History)
    requires h != []
    ensures Cursor(h) == After(Cursor(h[..|h| - 1]), Last(h))
  {
    var prefix := h[..|h| - 1];
    LatestBounds(Last(h));
    if First(prefix) == [] { NotStarted(prefix); }
  }

  /** What one more series adds. */
  lemma {:induction false} DataNext(h: History, down: Sampler)
    requires h != [] && down([]) == []
    ensures var prefix := h[..|h| - 1];
            down(First(h)) + Later(h) == down(First(prefix)) + Later(prefix) + NewData(Cursor(prefix), Last(h), down)
  {
    var prefix := h[..|h| - 1];
    if First(prefix) == [] {
      NotStarted(prefix);
      assert First(h) == Last(h) && Later(h) == [];
    } else {
      var first, later, query := down(First(h)), Later(prefix), Query(Last(h), Peak(prefix));
      assert First(h) == First(prefix);
      assert first + (later + query) == (first + later) + query;
    }
  }

  // ----- nothing is sent twice

  /** What a round adds ended after everything seen before, and is stored. */
  lemma {:induction false} AddedIsLater(h: History, p: Point)
    requires h != [] && p in Added(h)
    ensures Peak(h[..|h| - 1]) < p.time <= Peak(h) && p in Last(h)
  {
    QueryMembers(Last(h), Peak(h[..|h| - 1]), p);
    LatestBounds(Last(h));
  }

  lemma {:induction false} PeakGrows(h: History, i: nat, k: nat)
    requires i <= k <= |h|
    ensures Peak(h[..i]) <= Peak(h[..k])
    decreases k - i
  {
    if i < k {
      PeakGrows(h, i, k - 1);
      PeakBounds(h[..k]);
      assert h[..k][..k - 1] == h[..k - 1];
    }
  }

  /** Two rounds never send the same point: the later one's end times are all later. */
  lemma {:induction false} RoundsAreApart(h: History, i: nat, k: nat, p: Point, q: Point)
    requires i < k < |h| && p in Added(h[..i + 1]) && q in Added(h[..k + 1])
    ensures p.time < q.time
  {
    AddedIsLater(h[..i + 1], p);
    AddedIsLater(h[..k + 1], q);
    PeakGrows(h, i + 1, k);
    assert h[..k + 1][..k] == h[..k];
  }

  // ----- exactly once, or never

  /** The copies of points that the last round has and the round before did not, and the reverse;
      counted from the first nonempty series on. */
  function Fresh(h: History): multiset<Point>
    requires h != []
  {
    var prefix := h[..|h| - 1];
    if First(prefix) == [] then multiset{} else multiset(Last(h)) - multiset(Last(prefix))
  }

  function Vanished(h: History): multiset<Point>
    requires h != []
  {
    multiset(Last(h[..|h| - 1])) - multiset(Last(h))
  }

  /** All that became visible after the first batch, all of it that was not sent, and all that
      disappeared. */
  function Appeared(h: History): multiset<Point> {
    if h == [] then multiset{} else Appeared(h[..|h| - 1]) + Fresh(h)
  }

  function Missed(h: History): multiset<Point> {
    if h == [] then multiset{} else Missed(h[..|h| - 1]) + (Fresh(h) - multiset(Added(h)))
  }

  function Lost(h: History): multiset<Point> {
    if h == [] then multiset{} else Lost(h[..|h| - 1]) + Vanished(h)
  }

  /** Every copy of a point that is new in `after` ended after `peak`. */
  ghost predicate NewIsLater(peak: int, before: seq<Point>, after: seq<Point>) {
    forall p: Point :: multiset(after)[p] > multiset(before)[p] ==> p.time > peak
  }

  /** The last round's new points ended after everything seen before it. */
  ghost predicate InTime(h: History)
    requires h != []
  {
    var prefix := h[..|h| - 1];
    First(prefix) != [] ==> NewIsLater(Peak(prefix), Last(prefix), Last(h))
  }

  ghost predicate OnTime(h: History) {
    h == [] || (OnTime(h[..|h| - 1]) && InTime(h))
  }

  /** A query from no earlier than `before` sends at most what is new, and all of it exactly when it
      is all later. */
  lemma {:induction false} QuerySends(before: seq<Point>, after: seq<Point>, peak: int)
    requires Latest(before) <= peak
    ensures var sent := multiset(Query(after, peak));
            && sent <= multiset(after) - multiset(before)
            && (sent == multiset(after) - multiset(before) <==> NewIsLater(peak, before, after))
  {
    var sent, added := multiset(Query(after, peak)), multiset(after) - multiset(before);
    LatestBounds(before);
    forall p: Point
      ensures multiset(after)[p] > multiset(before)[p] ==> added[p] == multiset(after)[p] - multiset(before)[p]
      ensures multiset(after)[p] <= multiset(before)[p] ==> added[p] == 0
      ensures sent[p] == if p.time > peak then added[p] else 0
    {
      QueryCounts(after, peak, p);
      assert p in multiset(before) <==> p in before;
    }
  }

  lemma {:induction false} RoundSends(h: History)
    requires h != []
    ensures multiset(Added(h)) <= Fresh(h)
    ensures multiset(Added(h)) == Fresh(h) <==> InTime(h)
  {
    var prefix := h[..|h| - 1];
    if First(prefix) != [] {
      PeakBounds(prefix);
      QuerySends(Last(prefix), Last(h), Peak(prefix));
    }
  }

  lemma {:induction false} SumsCompare<T>(a: multiset<T>, b: multiset<T>, c: multiset<T>, d: multiset<T>)
    requires a <= c && b <= d
    ensures a + b <= c + d
    ensures a + b == c + d <==> a == c && b == d
  {
    if a + b == c + d {
      forall x: T ensures a[x] == c[x] && b[x] == d[x] { assert (a + b)[x] == (c + d)[x]; }
    }
  }

  /** Of all the copies that became visible after the first batch, each is sent at most once, and
      all of them are sent if and only if each round's new points ended after everything seen
      before.  Points may disappear, and come back under another end time. */
  lemma {:induction false} SentOnceExactly(h: History)
    ensures multiset(Later(h)) <= Appeared(h)
    ensures multiset(Later(h)) == Appeared(h) <==> OnTime(h)
  {
    if h != [] {
      var prefix := h[..|h| - 1];
      SentOnceExactly(prefix);
      RoundSends(h);
      assert multiset(Later(h)) == multiset(Later(prefix)) + multiset(Added(h));
      SumsCompare(multiset(Later(prefix)), multiset(Added(h)), Appeared(prefix), Fresh(h));
    }
  }

  /** Point `p` first shows up in round `k`, and did not end after everything seen before. */
  predicate Late(h: History, k: nat, p: Point) {
    && k < |h| && First(h[..k]) != [] && p.time <= Peak(h[..k])
    && forall i :: 0 <= i < k ==> p !in h[i]
  }

  /** A point that did not end after everything seen before a round is not sent in that round or in
      any later one. */
  lemma {:induction false} TooLate(h: History, k: nat, p: Point, m: nat)
    requires k <= m < |h| && p.time <= Peak(h[..k])
    ensures p !in Added(h[..m + 1])
  {
    if p in Added(h[..m + 1]) {
      AddedIsLater(h[..m + 1], p);
      assert h[..m + 1][..m] == h[..m];
      PeakGrows(h, k, m);
    }
  }

  lemma {:induction false} LateNotAdded(h: History, k: nat, p: Point, m: nat)
    requires Late(h, k, p) && m < |h|
    ensures p !in Added(h[..m + 1])
  {
    if m >= k {
      TooLate(h, k, p, m);
    } else if p in Added(h[..m + 1]) {
      AddedIsLater(h[..m + 1], p);
    }
  }

  lemma {:induction false} LaterPrefix(h: History, m: nat)
    requires m < |h|
    ensures Later(h[..m + 1]) == Later(h[..m]) + Added(h[..m + 1])
  {
    assert h[..m + 1][..m] == h[..m];
  }

  /** A late point is never sent. */
  lemma {:induction false} LateIsNeverSent(h: History, k: nat, p: Point, n: nat)
    requires Late(h, k, p) && n <= |h|
    ensures p !in Later(h[..n])
  {
    if n > 0 {
      LateIsNeverSent(h, k, p, n - 1);
      LateNotAdded(h, k, p, n - 1);
      LaterPrefix(h, n - 1);
    }
  }

  // ----- what the client is left with

  lemma {:induction false} BalanceStep<T>(first: multiset<T>, later: multiset<T>, missed: multiset<T>, lost: multiset<T>,
                                          before: multiset<T>, after: multiset<T>, added: multiset<T>)
    requires first + later + missed == before + lost && added <= after - before
    ensures first + (later + added) + (missed + ((after - before) - added)) == after + (lost + (before - after))
  {
    forall x: T
      ensures (first + (later + added) + (missed + ((after - before) - added)))[x] == (after + (lost + (before - after)))[x]
    {
      assert (first + later + missed)[x] == (before + lost)[x];
    }
  }

  /** Conservation: what was sent and what was missed is what is stored and what disappeared. */
  lemma {:induction false} Conservation(h: History)
    ensures multiset(First(h)) + multiset(Later(h)) + Missed(h) == multiset(Last(h)) + Lost(h)
    ensures First(h) == [] ==> Missed(h) == multiset{} && Lost(h) == multiset{}
  {
    if h != [] {
      var prefix := h[..|h| - 1];
      Conservation(prefix);
      if First(prefix) == [] {
        NotStarted(prefix);
        NothingBefore(h);
      } else {
        RoundSends(h);
        assert multiset(Later(h)) == multiset(Later(prefix)) + multiset(Added(h));
        BalanceStep(multiset(First(h)), multiset(Later(prefix)), Missed(prefix), Lost(prefix),
                    multiset(Last(prefix)), multiset(Last(h)), multiset(Added(h)));
      }
    }
  }

  lemma {:induction false} NothingBefore(h: History)
    requires h != [] && First(h[..|h| - 1]) == [] && Last(h[..|h| - 1]) == [] && Later(h[..|h| - 1]) == []
    requires Missed(h[..|h| - 1]) == multiset{} && Lost(h[..|h| - 1]) == multiset{}
    ensures First(h) == Last(h) && Later(h) == [] && Missed(h) == multiset{} && Lost(h) == multiset{}
  {
    assert Added(h) == [] && Fresh(h) == multiset{} && Vanished(h) == multiset{};
  }

  lemma {:induction false} CancelLeft<T>(sent: multiset<T>, missed: multiset<T>, stored: multiset<T>, lost: multiset<T>)
    requires sent + missed == stored + lost
    ensures sent == stored <==> missed == lost
  {
    forall x: T ensures sent[x] + missed[x] == stored[x] + lost[x] {
      assert (sent + missed)[x] == (stored + lost)[x];
    }
    if missed == lost { forall x: T ensures sent[x] == stored[x] {} }
    if sent == stored { forall x: T ensures missed[x] == lost[x] {} }
  }

  /** Without down-sampling, the points sent are the points stored if and only if what was missed is
      what disappeared. */
  lemma {:induction false} MirrorExactly(h: History)
    ensures multiset(First(h)) + multiset(Later(h)) == multiset(Last(h)) <==> Missed(h) == Lost(h)
  {
    Conservation(h);
    CancelLeft(multiset(First(h)) + multiset(Later(h)), Missed(h), multiset(Last(h)), Lost(h));
  }

  /** Nothing is missed exactly when every round is on time. */
  lemma {:induction false} MissedNothing(h: History)
    ensures Missed(h) == multiset{} <==> OnTime(h)
  {
    if h != [] {
      MissedNothing(h[..|h| - 1]);
      RoundSends(h);
      EmptySum(Missed(h[..|h| - 1]), Fresh(h) - multiset(Added(h)));
      EmptyDifference(multiset(Added(h)), Fresh(h));
    }
  }

  lemma {:induction false} EmptySum<T>(a: multiset<T>, b: multiset<T>)
    ensures a + b == multiset{} <==> a == multiset{} && b == multiset{}
  {
    if a + b == multiset{} {
      forall x: T ensures a[x] == 0 && b[x] == 0 { assert (a + b)[x] == 0; }
    }
  }

  lemma {:induction false} EmptyDifference<T>(a: multiset<T>, b: multiset<T>)
    requires a <= b
    ensures b - a == multiset{} <==> a == b
  {
    if b - a == multiset{} {
      forall x: T ensures a[x] == b[x] { assert (b - a)[x] == 0; }
    }
  }

  // ----- series that only grow

  /** Points do not disappear. */
  predicate Retained(h: History) {
    forall k :: 0 < k < |h| ==> multiset(h[k - 1]) <= multiset(h[k])
  }

  lemma {:induction false} LastStep(h: History)
    requires h != []
    ensures Retained(h) <==> Retained(h[..|h| - 1]) && multiset(Last(h[..|h| - 1])) <= multiset(Last(h))
  {
    var prefix := h[..|h| - 1];
    assert forall k :: 0 <= k < |prefix| ==> prefix[k] == h[k];
  }

  /** Nothing is lost exactly when points do not disappear. */
  lemma {:induction false} LostNothing(h: History)
    ensures Lost(h) == multiset{} <==> Retained(h)
  {
    if h != [] {
      LostNothing(h[..|h| - 1]);
      LastStep(h);
      EmptySum(Lost(h[..|h| - 1]), Vanished(h));
      NothingDropped(multiset(Last(h[..|h| - 1])), multiset(Last(h)));
    }
  }

  lemma {:induction false} NothingDropped<T>(a: multiset<T>, b: multiset<T>)
    ensures a - b == multiset{} <==> a <= b
  {
    if a - b == multiset{} {
      forall x: T ensures a[x] <= b[x] { assert (a - b)[x] == 0; }
    }
  }

  /** If points do not disappear, the points sent are the points stored if and only if every round is
      on time; if every round is on time, if and only if points do not disappear. */
  lemma {:induction false} MirrorCases(h: History)
    ensures Retained(h) ==> (multiset(First(h)) + multiset(Later(h)) == multiset(Last(h)) <==> OnTime(h))
    ensures OnTime(h) ==> (multiset(First(h)) + multiset(Later(h)) == multiset(Last(h)) <==> Retained(h))
  {
    MirrorExactly(h);
    MissedNothing(h);
    LostNothing(h);
  }

  /** New points come behind the old ones, as when batches only ever increase. */
  predicate Grows(h: History) {
    forall k :: 0 < k < |h| ==> h[k - 1] <= h[k]
  }

  lemma {:induction false} SplitCounts(before: seq<Point>, after: seq<Point>)
    requires before <= after
    ensures multiset(after) == multiset(before) + multiset(after[|before|..])
  {
    assert after == before + after[|before|..];
  }

  lemma {:induction false} GrowsStep(h: History)
    requires h != [] && Grows(h)
    ensures Grows(h[..|h| - 1]) && Last(h[..|h| - 1]) <= Last(h)
  {
    var prefix := h[..|h| - 1];
    assert forall k :: 0 <= k < |prefix| ==> prefix[k] == h[k];
  }

  lemma {:induction false} LatestPrefix(before: seq<Point>, after: seq<Point>)
    requires before <= after
    ensures Latest(before) <= Latest(after)
  {
    LatestBounds(after);
    forall p | p in before ensures p in after { var i :| 0 <= i < |before| && before[i] == p; assert after[i] == p; }
    LatestLeast(before, Latest(after));
  }

  lemma {:induction false} GrowsFacts(h: History)
    requires Grows(h)
    ensures First(h) <= Last(h) && Peak(h) == Latest(Last(h)) && Retained(h)
  {
    if h != [] {
      GrowsStep(h);
      GrowsFacts(h[..|h| - 1]);
      LatestPrefix(Last(h[..|h| - 1]), Last(h));
      SplitCounts(Last(h[..|h| - 1]), Last(h));
      LastStep(h);
    }
  }

  /** A round whose new points are later sends exactly the new part, in order. */
  lemma {:induction false} NewPartSent(before: seq<Point>, after: seq<Point>, peak: int)
    requires before <= after && Latest(before) <= peak && NewIsLater(peak, before, after)
    ensures Query(after, peak) == after[|before|..]
  {
    LatestBounds(before);
    SplitCounts(before, after);
    var rest := after[|before|..];
    forall p | p in rest ensures p.time > peak { assert p in multiset(rest); }
    QueryRest(before, rest, peak);
    assert before + rest == after;
  }

  lemma {:induction false} NewPartFollows(first: seq<Point>, before: seq<Point>, after: seq<Point>, peak: int)
    requires first <= before <= after && Latest(before) <= peak && NewIsLater(peak, before, after)
    ensures before[|first|..] + Query(after, peak) == after[|first|..]
  {
    NewPartSent(before, after, peak);
  }

  lemma {:induction false} InOrder(h: History)
    requires Grows(h) && OnTime(h)
    ensures First(h) <= Last(h) && Later(h) == Last(h)[|First(h)|..]
  {
    GrowsFacts(h);
    if h != [] {
      var prefix := h[..|h| - 1];
      GrowsStep(h);
      InOrder(prefix);
      if First(prefix) == [] {
        NotStarted(prefix);
      } else {
        PeakBounds(prefix);
        NewPartFollows(First(h), Last(prefix), Last(h), Peak(prefix));
      }
    }
  }

  /** If a series only grows at its end, the later data is the rest of the last series, in order, if
      and only if every round is on time.  End times need not increase within a round. */
  lemma {:induction false} InOrderExactly(h: History)
    requires Grows(h)
    ensures First(h) <= Last(h)
    ensures Later(h) == Last(h)[|First(h)|..] <==> OnTime(h)
  {
    GrowsFacts(h);
    MirrorCases(h);
    SplitCounts(First(h), Last(h));
    if OnTime(h) { InOrder(h); }
  }
}
