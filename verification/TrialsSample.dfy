/** The trial-sample stream: each round compares the current top trials with those of the round
    before and sends only what changed.  The database is a snapshot per round; the down-sampling of
    a first batch is a parameter. */
module TrialsSample {
  import opened Wrappers

  /** A metric point with the time its step ended; times are later than the zero time 0. */
  datatype Point = Point(time: int, batches: int, value: real)

  type Sampler = seq<Point> -> seq<Point>

  datatype Snapshot = Snapshot(top: seq<int>, series: map<int, seq<Point>>, hparams: map<int, string>)

  datatype Trial = Trial(id: int, hparams: Option<string>, data: seq<Point>)

  datatype Response = Response(trials: seq<Trial>, promoted: seq<int>, demoted: seq<int>)

  /** What the stream remembers between rounds. */
  datatype Stream = Stream(current: set<int>, cursors: map<int, int>)

  const START: Stream := Stream({}, map[])

  const TWO31: int := 0x8000_0000
  const TWO32: int := 0x1_0000_0000

  /** The conversion of a 64-bit id to int32. */
  function To32(x: int): int {
    (x + TWO31) % TWO32 - TWO31
  }

  predicate Fits(x: int) {
    -TWO31 <= x < TWO31
  }

  // ----- one trial's series

  /** The points that ended strictly after `start`, and the latest end time among them. */
  function Query(series: seq<Point>, start: int): seq<Point> {
    if series == [] then []
    else
      var n := |series| - 1;
      Query(series[..n], start) + (if series[n].time > start then [series[n]] else [])
  }

  function Latest(points: seq<Point>): int {
    if points == [] then 0
    else
      var n := |points| - 1;
      var before := Latest(points[..n]);
      if points[n].time > before then points[n].time else before
  }

  datatype Batch = Batch(cursor: Option<int>, data: seq<Point>)

  /** One query of a trial's series: the new cursor and the points to send. */
  function FetchSeries(cursor: Option<int>, series: seq<Point>, down: Sampler): Batch {
    var got := Query(series, if cursor.Some? then cursor.value else 0);
    Batch(if got != [] then Some(Latest(got)) else cursor, if cursor.Some? then got else down(got))
  }

  // ----- one round

  function CursorOf(st: Stream, id: int): Option<int> {
    if id in st.cursors then Some(st.cursors[id]) else None
  }

  function WithCursor(cursors: map<int, int>, id: int, cursor: Option<int>): map<int, int> {
    if cursor.Some? then cursors[id := cursor.value] else cursors
  }

  datatype Scanned = Scanned(stream: Stream, trials: seq<Trial>, promoted: seq<int>)

  /** One entry of the top-trial list: fetch its sample, and promote it if it is new. */
  function Visit(sc: Scanned, db: Snapshot, id: int, down: Sampler): Result<Scanned, string> {
    var isNew := id !in sc.stream.current;
    if isNew && id !in db.hparams then Failure("error fetching trial metadata")
    else if id !in db.series then Failure("error fetching time series of metrics")
    else
      var b := FetchSeries(CursorOf(sc.stream, id), db.series[id], down);
      var trial := Trial(To32(id), if isNew then Some(db.hparams[id]) else None, b.data);
      Success(Scanned(Stream(sc.stream.current + {id}, WithCursor(sc.stream.cursors, id, b.cursor)),
                      sc.trials + [trial],
                      if isNew then sc.promoted + [To32(id)] else sc.promoted))
  }

  function Scan(st: Stream, db: Snapshot, ids: seq<int>, down: Sampler): Result<Scanned, string> {
    if ids == [] then Success(Scanned(st, [], []))
    else
      var n := |ids| - 1;
      var before := Scan(st, db, ids[..n], down);
      if before.Failure? then before else Visit(before.value, db, ids[n], down)
  }

  /** The trials that dropped out of the top list. */
  function Dropped(current: set<int>, top: seq<int>): set<int> {
    set id | id in current && id !in top
  }

  /** `order` lists a set once each: the order in which a Go map happened to be iterated. */
  predicate Lists(order: seq<int>, s: set<int>) {
    multiset(order) == multiset(s)
  }

  function AllTo32(ids: seq<int>): seq<int> {
    seq(|ids|, i requires 0 <= i < |ids| => To32(ids[i]))
  }

  function SetOf(ids: seq<int>): set<int> {
    set id | id in ids
  }

  /** The stream after demotion: cursors go by the id, current trials by the id read back from its
      32-bit form. */
  function Demote(st: Stream, order: seq<int>): Stream {
    Stream(st.current - SetOf(AllTo32(order)), st.cursors - SetOf(order))
  }

  datatype Turn = Turn(stream: Stream, response: Response)

  /** A whole round; `order` is the iteration order of the dropped trials. */
  function Round(st: Stream, db: Snapshot, order: seq<int>, down: Sampler): Result<Turn, string> {
    var sc := Scan(st, db, db.top, down);
    if sc.Failure? then Failure(sc.error)
    else Success(Turn(Demote(sc.value.stream, order), Response(sc.value.trials, sc.value.promoted, AllTo32(order))))
  }

  predicate OrderOk(st: Stream, db: Snapshot, order: seq<int>, down: Sampler) {
    var sc := Scan(st, db, db.top, down);
    sc.Success? ==> Lists(order, Dropped(sc.value.stream.current, db.top))
  }

  // ----- whole streams

  /** One round's inputs. */
  datatype Input = Input(db: Snapshot, order: seq<int>)

  datatype Sent = Sent(stream: Stream, responses: seq<Response>)

  /** The stream after a sequence of rounds that all succeeded. */
  function Rounds(inputs: seq<Input>, down: Sampler): Option<Sent> {
    if inputs == [] then Some(Sent(START, []))
    else
      var n := |inputs| - 1;
      var before := Rounds(inputs[..n], down);
      if before.None? || !OrderOk(before.value.stream, inputs[n].db, inputs[n].order, down) then None
      else
        var t := Round(before.value.stream, inputs[n].db, inputs[n].order, down);
        if t.Failure? then None else Some(Sent(t.value.stream, before.value.responses + [t.value.response]))
  }

  /** What a client that applies the deltas believes the top trials to be. */
  function Replica(responses: seq<Response>): set<int> {
    if responses == [] then {}
    else
      var n := |responses| - 1;
      Replica(responses[..n]) + SetOf(responses[n].promoted) - SetOf(responses[n].demoted)
  }

  /** The stream as the server runs it: two maps updated across rounds. */
  class SampleStream {
    var currentTrials: set<int>
    var trialCursors: map<int, int>

    ghost function Value(): Stream
      reads this
    {
      Stream(currentTrials, trialCursors)
    }

    constructor ()
      ensures Value() == START
    {
      currentTrials, trialCursors := {}, map[];
    }

    method FetchTrialSample(id: int, db: Snapshot, down: Sampler) returns (r: Result<Trial, string>)
      modifies this`trialCursors
      ensures var v := Visit(Scanned(old(Value()), [], []), db, id, down);
              && r.Success? == v.Success?
              && (v.Success? ==> [r.value] == v.value.trials && trialCursors == v.value.stream.cursors)
              && (v.Failure? ==> r.error == v.error && trialCursors == old(trialCursors))
    {
      var hparams: Option<string> := None;
      if id !in currentTrials {
        if id !in db.hparams { return Failure("error fetching trial metadata"); }
        hparams := Some(db.hparams[id]);
      }
      var seenBefore := id in trialCursors;
      var startTime := if seenBefore then trialCursors[id] else 0;
      if id !in db.series { return Failure("error fetching time series of metrics"); }
      var series := Query(db.series[id], startTime);
      if series != [] {
        trialCursors := trialCursors[id := Latest(series)];
      }
      if !seenBefore { series := down(series); }
      r := Success(Trial(To32(id), hparams, series));
    }

    /** The body of the first loop: one top trial is sampled and, if it is new, promoted. */
    method Include(id: int, db: Snapshot, down: Sampler, trials: seq<Trial>, promoted: seq<int>)
      returns (failure: Option<string>, trials': seq<Trial>, promoted': seq<int>)
      modifies this
      ensures var v := Visit(Scanned(old(Value()), trials, promoted), db, id, down);
              && failure == (if v.Failure? then Some(v.error) else None)
              && (v.Success? ==> v.value == Scanned(Value(), trials', promoted'))
    {
      VisitIsLocal(Scanned(Value(), trials, promoted), db, id, down);
      failure, trials', promoted' := None, trials, promoted;
      var sample := FetchTrialSample(id, db, down);
      if sample.Failure? {
        failure := Some(sample.error);
        return;
      }
      assert old(currentTrials) + {id} == if id in currentTrials then currentTrials else currentTrials + {id};
      if id !in currentTrials {
        promoted' := promoted + [To32(id)];
        currentTrials := currentTrials + {id};
      }
      trials' := trials + [sample.value];
    }

    /** The first loop of a round: every top trial in turn. */
    method ScanTop(db: Snapshot, down: Sampler)
      returns (failure: Option<string>, trials: seq<Trial>, promoted: seq<int>, seen: set<int>)
      modifies this
      ensures var sc := Scan(old(Value()), db, db.top, down);
              && failure == (if sc.Failure? then Some(sc.error) else None)
              && (sc.Success? ==> sc.value == Scanned(Value(), trials, promoted) && seen == SetOf(db.top))
    {
      failure, trials, promoted, seen := None, [], [], {};
      for i := 0 to |db.top|
        invariant failure == None
        invariant Scan(old(Value()), db, db.top[..i], down) == Success(Scanned(Value(), trials, promoted))
        invariant seen == SetOf(db.top[..i])
      {
        ScanNext(old(Value()), db, db.top, i, down);
        failure, trials, promoted := Include(db.top[i], db, down, trials, promoted);
        if failure.Some? { return; }
        seen := seen + {db.top[i]};
        SetOfNext(db.top, i);
      }
      assert db.top[..|db.top|] == db.top;
    }

    /** The second loop: the trials that were not seen, in the order the map yields them. */
    method FindDropped(ghost top: seq<int>, seen: set<int>) returns (demoted: seq<int>, ghost order: seq<int>)
      requires seen == SetOf(top)
      modifies this`trialCursors
      ensures Lists(order, Dropped(currentTrials, top)) && demoted == AllTo32(order)
      ensures trialCursors == old(trialCursors) - SetOf(order)
    {
      demoted, order := [], [];
      var left := currentTrials;
      while exists id :: id in left
        invariant left <= currentTrials && trialCursors == old(trialCursors) - SetOf(order)
        invariant Lists(order, Dropped(currentTrials - left, top)) && demoted == AllTo32(order)
        decreases left
      {
        var oldTrial :| oldTrial in left;
        DroppedNext(currentTrials, left, top, oldTrial, order);
        left := left - {oldTrial};
        if oldTrial !in seen {
          demoted := demoted + [To32(oldTrial)];
          order := order + [oldTrial];
          trialCursors := trialCursors - {oldTrial};
        }
      }
      assert currentTrials - left == currentTrials;
    }

    /** The third loop: deletions wait until nothing iterates over the map. */
    method Forget(demoted: seq<int>)
      modifies this`currentTrials
      ensures currentTrials == old(currentTrials) - SetOf(demoted)
    {
      for i := 0 to |demoted|
        invariant currentTrials == old(currentTrials) - SetOf(demoted[..i])
      {
        SetOfNext(demoted, i);
        currentTrials := currentTrials - {demoted[i]};
      }
      assert demoted[..|demoted|] == demoted;
    }

    method NextRound(db: Snapshot, down: Sampler) returns (r: Result<Response, string>, ghost order: seq<int>)
      modifies this
      ensures OrderOk(old(Value()), db, order, down)
      ensures var t := Round(old(Value()), db, order, down);
              && r.Success? == t.Success?
              && (t.Success? ==> r.value == t.value.response && Value() == t.value.stream)
              && (t.Failure? ==> r.error == t.error)
    {
      var failure, trials, promoted, seen := ScanTop(db, down);
      if failure.Some? { return Failure(failure.value), []; }
      var demoted;
      demoted, order := FindDropped(db.top, seen);
      Forget(demoted);
      r := Success(Response(trials, promoted, demoted));
    }
  }

  /** One more trial of the map looked at. */
  lemma {:induction false} DroppedNext(current: set<int>, left: set<int>, top: seq<int>, id: int, order: seq<int>)
    requires id in left && left <= current && Lists(order, Dropped(current - left, top))
    ensures id in top ==> Lists(order, Dropped(current - (left - {id}), top))
    ensures id !in top ==> Lists(order + [id], Dropped(current - (left - {id}), top))
    ensures SetOf(order + [id]) == SetOf(order) + {id}
  {
    var before, after := Dropped(current - left, top), Dropped(current - (left - {id}), top);
    assert after == if id in top then before else before + {id};
  }

  lemma {:induction false} SetOfNext(ids: seq<int>, i: nat)
    requires i < |ids|
    ensures SetOf(ids[..i + 1]) == SetOf(ids[..i]) + {ids[i]}
  {
    assert ids[..i + 1] == ids[..i] + [ids[i]];
  }

  lemma {:induction false} ScanNext(st: Stream, db: Snapshot, ids: seq<int>, i: nat, down: Sampler)
    requires i < |ids| && Scan(st, db, ids[..i], down).Success?
    ensures Scan(st, db, ids[..i + 1], down) == Visit(Scan(st, db, ids[..i], down).value, db, ids[i], down)
    ensures Scan(st, db, ids[..i + 1], down).Failure? ==> Scan(st, db, ids, down) == Scan(st, db, ids[..i + 1], down)
  {
    assert ids[..i + 1][..i] == ids[..i];
    if Scan(st, db, ids[..i + 1], down).Failure? { ScanFails(st, db, ids, i + 1, down); }
  }

  /** A visit appends to the lists it is given and depends on the stream only. */
  lemma {:induction false} VisitIsLocal(sc: Scanned, db: Snapshot, id: int, down: Sampler)
    ensures var v, w := Visit(sc, db, id, down), Visit(Scanned(sc.stream, [], []), db, id, down);
            && v.Success? == w.Success?
            && (v.Success? ==> v.value.stream == w.value.stream && v.value.trials == sc.trials + w.value.trials
                               && v.value.promoted == sc.promoted + w.value.promoted)
            && (v.Failure? ==> v.error == w.error)
  {
  }

  lemma {:induction false} ScanFails(st: Stream, db: Snapshot, ids: seq<int>, i: nat, down: Sampler)
    requires i <= |ids| && Scan(st, db, ids[..i], down).Failure?
    ensures Scan(st, db, ids, down) == Scan(st, db, ids[..i], down)
    decreases |ids|
  {
    if i == |ids| {
      assert ids[..i] == ids;
    } else {
      assert ids[..|ids| - 1][..i] == ids[..i];
      ScanFails(st, db, ids[..|ids| - 1], i, down);
    }
  }
}
