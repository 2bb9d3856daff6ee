/** What a client receives for one trial while it stays among the top trials: the responses of whole
    streams, in terms of the history of the trial's series. */
module TrialTenure {
  import opened Wrappers
  import opened TrialsSample
  import opened TrialsSampleTheorems
  import opened SeriesHistory

  // ----- one round

  /** The points that the entries of a response carry for a trial. */
  function DataFor(trials: seq<Trial>, id: int): seq<Point> {
    if trials == [] then []
    else
      var n := |trials| - 1;
      DataFor(trials[..n], id) + (if trials[n].id == id then trials[n].data else [])
  }

  lemma {:induction false} DataForNext(trials: seq<Trial>, last: Trial, id: int)
    ensures DataFor(trials + [last], id) == DataFor(trials, id) + (if last.id == id then last.data else [])
  {
    assert (trials + [last])[..|trials|] == trials;
  }

  /** One entry of a round, seen from trial `id`. */
  lemma {:induction false} VisitExactly(sc: Scanned, db: Snapshot, v: int, down: Sampler, id: int)
    requires Visit(sc, db, v, down).Success? && Fits(v)
    requires id in db.series && Positive(db.series[id]) && CursorOk(CursorOf(sc.stream, id))
    ensures var next, c := Visit(sc, db, v, down).value, CursorOf(sc.stream, id);
            && CursorOf(next.stream, id) == (if v == id then After(c, db.series[id]) else c)
            && DataFor(next.trials, id) ==
               DataFor(sc.trials, id) + (if v == id then NewData(c, db.series[id], down) else [])
  {
    var next := Visit(sc, db, v, down).value;
    To32Facts(v);
    DataForNext(sc.trials, next.trials[|sc.trials|], id);
    if v == id { FetchExactly(CursorOf(sc.stream, id), db.series[id], down); }
  }

  /** A round sends a listed trial what ended after its cursor, once, however often the list repeats
      it, moves the cursor to the maximum, and leaves unlisted trials alone. */
  lemma {:induction false} ScanExactly(st: Stream, db: Snapshot, ids: seq<int>, down: Sampler, id: int)
    requires Scan(st, db, ids, down).Success? && AllFit(ids) && down([]) == []
    requires id in db.series && Positive(db.series[id]) && CursorOk(CursorOf(st, id))
    ensures var sc, c := Scan(st, db, ids, down).value, CursorOf(st, id);
            && CursorOf(sc.stream, id) == (if id in ids then After(c, db.series[id]) else c)
            && DataFor(sc.trials, id) == (if id in ids then NewData(c, db.series[id], down) else [])
  {
    if ids != [] {
      var n, c, series := |ids| - 1, CursorOf(st, id), db.series[id];
      ScanExactly(st, db, ids[..n], down, id);
      FetchExactly(c, series, down);
      VisitExactly(Scan(st, db, ids[..n], down).value, db, ids[n], down, id);
      FetchAgain(c, series, down);
      assert id in ids <==> id in ids[..n] || ids[n] == id;
    }
  }

  /** A trial that stays listed keeps its cursor through the demotions. */
  lemma {:induction false} CursorKept(st: Stream, db: Snapshot, order: seq<int>, down: Sampler, id: int)
    requires OrderOk(st, db, order, down) && Round(st, db, order, down).Success? && id in db.top
    ensures CursorOf(Round(st, db, order, down).value.stream, id) ==
            CursorOf(Scan(st, db, db.top, down).value.stream, id)
  {
    ListsSet(order, TrialsSample.Dropped(Scan(st, db, db.top, down).value.stream.current, db.top));
  }

  // ----- a tenure

  function SeriesAt(inputs: seq<Input>, id: int, k: nat): seq<Point>
    requires k < |inputs|
  {
    if id in inputs[k].db.series then inputs[k].db.series[id] else []
  }

  function SeriesFrom(inputs: seq<Input>, id: int, a: nat): (h: History)
    requires a <= |inputs|
    ensures |h| == |inputs| - a
  {
    seq(|inputs| - a, i requires 0 <= i < |inputs| - a => SeriesAt(inputs, id, a + i))
  }

  /** From round `a` on, and not just before, `id` is a top trial. */
  predicate Tenured(inputs: seq<Input>, id: int, a: nat) {
    && a <= |inputs| && (a == 0 || id !in inputs[a - 1].db.top)
    && (forall k :: a <= k < |inputs| ==> id in inputs[k].db.top && id in inputs[k].db.series)
    && (forall k :: a <= k < |inputs| ==> Positive(SeriesAt(inputs, id, k)))
  }

  /** Everything that the responses from round `a` on carry for `id`. */
  function SentFor(responses: seq<Response>, id: int, a: nat): seq<Point> {
    if |responses| <= a then []
    else
      var n := |responses| - 1;
      SentFor(responses[..n], id, a) + DataFor(responses[n].trials, id)
  }

  lemma {:induction false} RoundsNext(inputs: seq<Input>, down: Sampler)
    requires inputs != [] && Rounds(inputs, down).Some?
    ensures var n := |inputs| - 1;
            && Rounds(inputs[..n], down).Some?
            && var before := Rounds(inputs[..n], down).value;
               var t := Round(before.stream, inputs[n].db, inputs[n].order, down);
               && OrderOk(before.stream, inputs[n].db, inputs[n].order, down) && t.Success?
               && Rounds(inputs, down).value == Sent(t.value.stream, before.responses + [t.value.response])
  {
  }

  lemma {:induction false} OneResponseEach(inputs: seq<Input>, down: Sampler)
    requires Rounds(inputs, down).Some?
    ensures |Rounds(inputs, down).value.responses| == |inputs|
  {
    if inputs != [] {
      RoundsNext(inputs, down);
      OneResponseEach(inputs[..|inputs| - 1], down);
    }
  }

  lemma {:induction false} SentForNext(responses: seq<Response>, last: Response, id: int, a: nat)
    requires a <= |responses|
    ensures SentFor(responses + [last], id, a) == SentFor(responses, id, a) + DataFor(last.trials, id)
  {
    assert (responses + [last])[..|responses|] == responses;
  }

  lemma {:induction false} TenuredBefore(inputs: seq<Input>, id: int, a: nat)
    requires Tenured(inputs, id, a) && a < |inputs| && EveryIdFits(inputs)
    ensures Tenured(inputs[..|inputs| - 1], id, a) && EveryIdFits(inputs[..|inputs| - 1])
    ensures SeriesFrom(inputs[..|inputs| - 1], id, a) == SeriesFrom(inputs, id, a)[..|inputs| - 1 - a]
  {
    var prefix := inputs[..|inputs| - 1];
    assert forall k :: 0 <= k < |prefix| ==> prefix[k] == inputs[k];
    forall k | a <= k < |prefix| ensures SeriesAt(prefix, id, k) == SeriesAt(inputs, id, k) {}
    assert SeriesFrom(prefix, id, a) == SeriesFrom(inputs, id, a)[..|inputs| - 1 - a];
  }

  /** The last round of a tenure. */
  lemma {:induction false} LastRound(inputs: seq<Input>, down: Sampler, id: int, a: nat)
    requires a < |inputs| && Rounds(inputs, down).Some? && Rounds(inputs[..|inputs| - 1], down).Some? && down([]) == []
    requires var n := |inputs| - 1;
             && id in inputs[n].db.top && id in inputs[n].db.series && Positive(inputs[n].db.series[id])
             && AllFit(inputs[n].db.top) && CursorOk(CursorOf(Rounds(inputs[..n], down).value.stream, id))
    ensures var n := |inputs| - 1;
            var series, before := inputs[n].db.series[id], Rounds(inputs[..n], down).value;
            var c := CursorOf(before.stream, id);
            && CursorOf(Rounds(inputs, down).value.stream, id) == After(c, series)
            && SentFor(Rounds(inputs, down).value.responses, id, a) ==
               SentFor(before.responses, id, a) + NewData(c, series, down)
  {
    var n := |inputs| - 1;
    var db, before := inputs[n].db, Rounds(inputs[..n], down).value;
    RoundsNext(inputs, down);
    OneResponseEach(inputs[..n], down);
    ScanExactly(before.stream, db, db.top, down, id);
    CursorKept(before.stream, db, inputs[n].order, down, id);
    SentForNext(before.responses, Round(before.stream, db, inputs[n].order, down).value.response, id, a);
  }

  /** Everything that is sent for a history, and where the cursor stands. */
  predicate Accounts(h: History, cursor: Option<int>, data: seq<Point>, down: Sampler) {
    cursor == Cursor(h) && data == down(First(h)) + Later(h)
  }

  predicate Sends(inputs: seq<Input>, down: Sampler, id: int, a: nat)
    requires Rounds(inputs, down).Some? && a <= |inputs|
  {
    Accounts(SeriesFrom(inputs, id, a), CursorOf(Rounds(inputs, down).value.stream, id),
             SentFor(Rounds(inputs, down).value.responses, id, a), down)
  }

  lemma {:induction false} AccountsNext(h: History, cursor: Option<int>, data: seq<Point>, down: Sampler)
    requires h != [] && down([]) == [] && Accounts(h[..|h| - 1], cursor, data, down)
    ensures CursorOk(cursor)
    ensures Accounts(h, After(cursor, Last(h)), data + NewData(cursor, Last(h), down), down)
  {
    PeakBounds(h[..|h| - 1]);
    CursorNext(h);
    DataNext(h, down);
  }

  lemma {:induction false} TenureLast(inputs: seq<Input>, id: int, a: nat)
    requires Tenured(inputs, id, a) && a < |inputs| && EveryIdFits(inputs)
    ensures var n := |inputs| - 1;
            && id in inputs[n].db.top && AllFit(inputs[n].db.top) && id in inputs[n].db.series
            && Positive(inputs[n].db.series[id]) && Last(SeriesFrom(inputs, id, a)) == inputs[n].db.series[id]
  {
    var n := |inputs| - 1;
    assert SeriesAt(inputs, id, n) == SeriesFrom(inputs, id, a)[n - a];
  }

  lemma {:induction false} TenureStep(inputs: seq<Input>, down: Sampler, id: int, a: nat, h: History, before: Sent)
    requires Rounds(inputs, down).Some? && Tenured(inputs, id, a) && a < |inputs| && EveryIdFits(inputs) && down([]) == []
    requires h == SeriesFrom(inputs, id, a) && Rounds(inputs[..|inputs| - 1], down) == Some(before)
    requires Accounts(h[..|h| - 1], CursorOf(before.stream, id), SentFor(before.responses, id, a), down)
    ensures Accounts(h, CursorOf(Rounds(inputs, down).value.stream, id),
                     SentFor(Rounds(inputs, down).value.responses, id, a), down)
  {
    TenureLast(inputs, id, a);
    AccountsNext(h, CursorOf(before.stream, id), SentFor(before.responses, id, a), down);
    LastRound(inputs, down, id, a);
  }

  lemma {:induction false} TenureStarts(inputs: seq<Input>, down: Sampler, id: int)
    requires Rounds(inputs, down).Some? && EveryIdFits(inputs) && down([]) == []
    requires Tenured(inputs, id, |inputs|)
    ensures Sends(inputs, down, id, |inputs|)
  {
    FittingStream(inputs, down);
    OneResponseEach(inputs, down);
  }

  /** Over a tenure the client receives the down-sampled first nonempty series and then, from each
      round, the points that ended after everything seen before; the cursor is the latest end time
      ever seen.  Points may be stored late and may disappear; a trial that was demoted starts again
      from nothing. */
  lemma {:induction false} TenureSends(inputs: seq<Input>, down: Sampler, id: int, a: nat)
    requires Rounds(inputs, down).Some? && EveryIdFits(inputs) && down([]) == []
    requires Tenured(inputs, id, a)
    ensures Sends(inputs, down, id, a)
    decreases |inputs|
  {
    if |inputs| == a {
      TenureStarts(inputs, down, id);
    } else {
      var h := SeriesFrom(inputs, id, a);
      TenuredBefore(inputs, id, a);
      RoundsNext(inputs, down);
      assert SeriesFrom(inputs[..|inputs| - 1], id, a) == h[..|h| - 1];
      TenureSends(inputs[..|inputs| - 1], down, id, a);
      TenureStep(inputs, down, id, a, h, Rounds(inputs[..|inputs| - 1], down).value);
    }
  }

  lemma {:induction false} HistoryExactly(h: History)
    ensures multiset(Later(h)) <= Appeared(h)
    ensures multiset(Later(h)) == Appeared(h) <==> OnTime(h)
    ensures forall k: nat, p: Point :: Late(h, k, p) ==> p !in Later(h)
  {
    SentOnceExactly(h);
    forall k: nat, p: Point | Late(h, k, p) ensures p !in Later(h) {
      LateIsNeverSent(h, k, p, |h|);
      assert h[..|h|] == h;
    }
  }

  /** Exactly-once points, over one uninterrupted tenure and whatever is stored or rolled back: after
      the down-sampled first batch, every copy that became visible is sent at most once; all are
      sent if and only if each round's new points ended after everything seen before, and a point
      that did not is never sent. */
  lemma {:induction false} ExactlyOnce(inputs: seq<Input>, down: Sampler, id: int, a: nat)
    requires Rounds(inputs, down).Some? && EveryIdFits(inputs) && down([]) == []
    requires Tenured(inputs, id, a)
    ensures var h := SeriesFrom(inputs, id, a);
            && SentFor(Rounds(inputs, down).value.responses, id, a) == down(First(h)) + Later(h)
            && multiset(Later(h)) <= Appeared(h)
            && (multiset(Later(h)) == Appeared(h) <==> OnTime(h))
            && forall k: nat, p: Point :: Late(h, k, p) ==> p !in Later(h)
  {
    TenureSends(inputs, down, id, a);
    HistoryExactly(SeriesFrom(inputs, id, a));
  }

  // ----- every history is possible

  /** An experiment with one trial, whose series goes through `h`. */
  function Steady(id: int, h: History): (inputs: seq<Input>)
    ensures |inputs| == |h|
  {
    seq(|h|, k requires 0 <= k < |h| => Input(Snapshot([id], map[id := h[k]], map[id := ""]), []))
  }

  lemma {:induction false} SteadyRound(st: Stream, id: int, series: seq<Point>, down: Sampler)
    requires st.current <= {id}
    ensures var db := Snapshot([id], map[id := series], map[id := ""]);
            && OrderOk(st, db, [], down) && Round(st, db, [], down).Success?
            && Round(st, db, [], down).value.stream.current == {id}
  {
    var db := Snapshot([id], map[id := series], map[id := ""]);
    assert db.top[..0] == [];
    var sc := Visit(Scanned(st, [], []), db, id, down).value;
    assert Scan(st, db, db.top[..0], down) == Success(Scanned(st, [], []));
    assert Scan(st, db, db.top, down) == Success(sc);
    assert sc.stream.current == {id};
    assert TrialsSample.Dropped(sc.stream.current, db.top) == {};
    assert SetOf(AllTo32([])) == {};
  }

  lemma {:induction false} SteadyRuns(id: int, h: History, down: Sampler)
    ensures Rounds(Steady(id, h), down).Some? && Rounds(Steady(id, h), down).value.stream.current <= {id}
  {
    if h != [] {
      var n := |h| - 1;
      SteadyRuns(id, h[..n], down);
      assert Steady(id, h)[..n] == Steady(id, h[..n]);
      SteadyRound(Rounds(Steady(id, h[..n]), down).value.stream, id, h[n], down);
    }
  }

  /** Every history of a series is that of some stream, so the conditions above cannot be weakened. */
  lemma {:induction false} EveryHistory(id: int, h: History, down: Sampler)
    requires Fits(id) && down([]) == [] && forall k :: 0 <= k < |h| ==> Positive(h[k])
    ensures Rounds(Steady(id, h), down).Some?
    ensures SentFor(Rounds(Steady(id, h), down).value.responses, id, 0) == down(First(h)) + Later(h)
  {
    var inputs := Steady(id, h);
    SteadyRuns(id, h, down);
    forall k | 0 <= k < |h| ensures SeriesAt(inputs, id, k) == h[k] && AllFit(inputs[k].db.top) {}
    assert SeriesFrom(inputs, id, 0) == h;
    TenureSends(inputs, down, id, 0);
  }

  // ----- two such histories

  /** Batch 100 ended, was rolled back, and ended again. */
  function RolledBack(x: real, y: real): History {
    [[Point(1, 100, x)], [], [Point(3, 100, y)]]
  }

  /** Batch 200 is stored after batch 100 although it ended before. */
  function StoredLate(x: real, y: real): History {
    [[Point(2, 100, x)], [Point(2, 100, x), Point(1, 200, y)]]
  }

  lemma {:induction false} OneSeries(p: Point)
    requires p.time > 0
    ensures Latest([p]) == p.time && forall start :: Query([p], start) == if p.time > start then [p] else []
  {
    assert [p][..0] == [];
  }

  lemma {:induction false} StartsWith(p: Point)
    requires p.time > 0
    ensures First([[p]]) == [p] && Later([[p]]) == [] && Peak([[p]]) == p.time
  {
    OneSeries(p);
    assert [[p]][..0] == [];
  }

  lemma {:induction false} NextSeries(h: History, series: seq<Point>)
    requires First(h) != []
    ensures First(h + [series]) == First(h)
    ensures Later(h + [series]) == Later(h) + Query(series, Peak(h))
    ensures Peak(h + [series]) == Max(Peak(h), Latest(series))
  {
    assert (h + [series])[..|h|] == h;
  }

  lemma {:induction false} RolledBackHistory(x: real, y: real)
    ensures First(RolledBack(x, y)) == [Point(1, 100, x)] && Later(RolledBack(x, y)) == [Point(3, 100, y)]
    ensures forall k :: 0 <= k < 3 ==> Positive(RolledBack(x, y)[k])
  {
    var p, q := Point(1, 100, x), Point(3, 100, y);
    StartsWith(p);
    OneSeries(q);
    NextSeries([[p]], []);
    assert [[p]] + [[]] == [[p], []];
    NextSeries([[p], []], [q]);
    assert [[p], []] + [[q]] == RolledBack(x, y);
  }

  /** A rolled-back trial: the client is sent the batch twice, and keeps the point that is gone. */
  lemma {:induction false} RollbackResends(id: int, x: real, y: real, down: Sampler, h: History)
    requires Fits(id) && down([]) == [] && h == RolledBack(x, y)
    ensures Rounds(Steady(id, h), down).Some?
    ensures SentFor(Rounds(Steady(id, h), down).value.responses, id, 0) == down([Point(1, 100, x)]) + [Point(3, 100, y)]
    ensures Last(h) == [Point(3, 100, y)]
  {
    RolledBackHistory(x, y);
    EveryHistory(id, h, down);
  }

  lemma {:induction false} StoredLateHistory(x: real, y: real)
    ensures First(StoredLate(x, y)) == [Point(2, 100, x)] && Later(StoredLate(x, y)) == []
    ensures Point(1, 200, y) in Last(StoredLate(x, y)) && forall k :: 0 <= k < 2 ==> Positive(StoredLate(x, y)[k])
  {
    var p, q := Point(2, 100, x), Point(1, 200, y);
    StartsWith(p);
    QueryNone([p, q], 2);
    NextSeries([[p]], [p, q]);
    assert [[p]] + [[p, q]] == StoredLate(x, y);
    assert Last(StoredLate(x, y))[1] == q;
  }

  /** A late point: it is stored, and no round ever sends it. */
  lemma {:induction false} LatePointLost(id: int, x: real, y: real, down: Sampler, h: History)
    requires Fits(id) && down([]) == [] && h == StoredLate(x, y)
    ensures Rounds(Steady(id, h), down).Some?
    ensures SentFor(Rounds(Steady(id, h), down).value.responses, id, 0) == down([Point(2, 100, x)])
    ensures Point(1, 200, y) in Last(h)
  {
    StoredLateHistory(x, y);
    EveryHistory(id, h, down);
  }
}
