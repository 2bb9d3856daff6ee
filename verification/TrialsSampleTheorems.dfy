/** The deltas of the trial-sample stream stand for the snapshots they replace. */
module TrialsSampleTheorems {
  import opened Wrappers
  import opened TrialsSample

  // ----- membership

  lemma {:induction false} To32Facts(x: int)
    ensures Fits(To32(x)) && (To32(x) - x) % TWO32 == 0 && (Fits(x) <==> To32(x) == x)
  {
  }

  lemma {:induction false} ListsSet(order: seq<int>, s: set<int>)
    requires Lists(order, s)
    ensures SetOf(order) == s
  {
    forall x ensures x in order <==> x in s {
      assert x in order <==> x in multiset(order);
      assert x in s <==> x in multiset(s);
    }
  }

  /** The ids of the entries that carry hyperparameters, in order. */
  function WithHparams(trials: seq<Trial>): seq<int> {
    if trials == [] then []
    else
      var n := |trials| - 1;
      WithHparams(trials[..n]) + (if trials[n].hparams.Some? then [trials[n].id] else [])
  }

  /** What entry `i` of a round carries besides its points: the trial's id as sent, and the stored
      hyperparameters exactly if the trial is neither current nor listed before. */
  predicate EntryOk(current: set<int>, db: Snapshot, ids: seq<int>, i: nat, entry: Trial)
    requires i < |ids|
  {
    && entry.id == To32(ids[i])
    && if ids[i] in current || ids[i] in ids[..i] then entry.hparams == None
       else ids[i] in db.hparams && entry.hparams == Some(db.hparams[ids[i]])
  }

  /** What a scan of `ids` has produced. */
  predicate Entered(st: Stream, db: Snapshot, ids: seq<int>, sc: Scanned) {
    && |sc.trials| == |ids|
    && sc.stream.current == st.current + SetOf(ids)
    && (forall i :: 0 <= i < |ids| ==> EntryOk(st.current, db, ids, i, sc.trials[i]))
    && sc.promoted == WithHparams(sc.trials)
    && SetOf(sc.promoted) == (set id | id in ids && id !in st.current :: To32(id))
    && sc.stream.cursors.Keys <= st.cursors.Keys + SetOf(ids)
  }

  lemma {:induction false} SetOfSnoc(ids: seq<int>, v: int)
    ensures SetOf(ids + [v]) == SetOf(ids) + {v}
  {
  }

  lemma {:induction false} WithHparamsSnoc(trials: seq<Trial>, last: Trial)
    ensures WithHparams(trials + [last]) == WithHparams(trials) + (if last.hparams.Some? then [last.id] else [])
  {
    assert (trials + [last])[..|trials|] == trials;
  }

  /** Earlier entries are as they were. */
  lemma {:induction false} EntriesStay(current: set<int>, db: Snapshot, ids: seq<int>, v: int, i: nat, entry: Trial)
    requires i < |ids| && EntryOk(current, db, ids, i, entry)
    ensures EntryOk(current, db, ids + [v], i, entry)
  {
    assert (ids + [v])[..i] == ids[..i];
  }

  /** The entry that a visit adds. */
  lemma {:induction false} VisitEntry(st: Stream, before: Scanned, db: Snapshot, ids: seq<int>, v: int, down: Sampler)
    requires before.stream.current == st.current + SetOf(ids) && Visit(before, db, v, down).Success?
    ensures var sc := Visit(before, db, v, down).value;
            && |sc.trials| == |before.trials| + 1 && sc.trials == before.trials + [sc.trials[|before.trials|]]
            && sc.stream.current == before.stream.current + {v}
            && sc.stream.cursors.Keys <= before.stream.cursors.Keys + {v}
            && EntryOk(st.current, db, ids + [v], |ids|, sc.trials[|before.trials|])
            && sc.promoted == before.promoted + (if sc.trials[|before.trials|].hparams.Some? then [To32(v)] else [])
            && (sc.trials[|before.trials|].hparams.Some? <==> v !in st.current && v !in ids)
  {
    assert (ids + [v])[..|ids|] == ids;
  }

  lemma {:induction false} EnteredNext(st: Stream, db: Snapshot, ids: seq<int>, v: int, before: Scanned, down: Sampler)
    requires Entered(st, db, ids, before) && Visit(before, db, v, down).Success?
    ensures Entered(st, db, ids + [v], Visit(before, db, v, down).value)
  {
    var sc := Visit(before, db, v, down).value;
    VisitEntry(st, before, db, ids, v, down);
    SetOfSnoc(ids, v);
    SetOfSnoc(before.promoted, To32(v));
    WithHparamsSnoc(before.trials, sc.trials[|ids|]);
    forall i | 0 <= i < |ids| + 1 ensures EntryOk(st.current, db, ids + [v], i, sc.trials[i]) {
      if i < |ids| { EntriesStay(st.current, db, ids, v, i, before.trials[i]); }
    }
    PromotedNext(st.current, ids, v);
  }

  lemma {:induction false} PromotedNext(current: set<int>, ids: seq<int>, v: int)
    ensures (set id | id in ids + [v] && id !in current :: To32(id)) ==
            (set id | id in ids && id !in current :: To32(id)) + (if v in current then {} else {To32(v)})
  {
  }

  lemma {:induction false} ScanSnoc(st: Stream, db: Snapshot, ids: seq<int>, v: int, down: Sampler)
    ensures var before := Scan(st, db, ids, down);
            Scan(st, db, ids + [v], down) == if before.Failure? then before else Visit(before.value, db, v, down)
  {
    assert (ids + [v])[..|ids|] == ids;
  }

  /** The entries of a round: one per listed trial, and the promoted ids are exactly those of the
      entries that carry hyperparameters, in order. */
  lemma {:induction false} ScanEntries(st: Stream, db: Snapshot, ids: seq<int>, down: Sampler)
    requires Scan(st, db, ids, down).Success?
    ensures Entered(st, db, ids, Scan(st, db, ids, down).value)
  {
    if ids != [] {
      var rest, v := ids[..|ids| - 1], ids[|ids| - 1];
      assert ids == rest + [v];
      ScanSnoc(st, db, rest, v, down);
      ScanEntries(st, db, rest, down);
      EnteredNext(st, db, rest, v, Scan(st, db, rest, down).value, down);
    }
  }

  predicate Fetchable(current: set<int>, db: Snapshot, id: int) {
    id in db.series && (id in current || id in db.hparams)
  }

  predicate AllFetchable(current: set<int>, db: Snapshot, ids: seq<int>) {
    forall id :: id in ids ==> Fetchable(current, db, id)
  }

  lemma {:induction false} FetchableNext(current: set<int>, db: Snapshot, ids: seq<int>, v: int)
    ensures AllFetchable(current, db, ids + [v]) <==>
            AllFetchable(current, db, ids) && Fetchable(current + SetOf(ids), db, v)
  {
    assert forall id :: id in ids + [v] <==> id in ids || id == v;
    if AllFetchable(current, db, ids) && v in ids { assert Fetchable(current, db, v); }
  }

  /** Exactly when a round can be sent: every listed trial has a series, and every one that is not
      current has its hyperparameters stored. */
  lemma {:induction false} ScanSucceedsExactly(st: Stream, db: Snapshot, ids: seq<int>, down: Sampler)
    ensures Scan(st, db, ids, down).Success? <==> AllFetchable(st.current, db, ids)
  {
    if ids != [] {
      var rest, v := ids[..|ids| - 1], ids[|ids| - 1];
      assert ids == rest + [v];
      ScanSucceedsExactly(st, db, rest, down);
      FetchableNext(st.current, db, rest, v);
      if Scan(st, db, rest, down).Success? {
        ScanEntries(st, db, rest, down);
        VisitSucceeds(Scan(st, db, rest, down).value, db, v, down);
      }
    }
  }

  /** A round that cannot be sent fails with the error of the first listed trial that is in the way:
      missing hyperparameters of a trial that is not current, or else a missing series. */
  lemma {:induction false} ScanErrorExactly(st: Stream, db: Snapshot, ids: seq<int>, i: nat, down: Sampler)
    requires i < |ids| && !Fetchable(st.current, db, ids[i]) && AllFetchable(st.current, db, ids[..i])
    ensures Scan(st, db, ids, down) == Failure(ErrorOf(st.current, db, ids[i]))
  {
    ScanErrorNext(st, db, ids[..i], ids[i], down);
    assert ids[..i + 1] == ids[..i] + [ids[i]];
    ScanFails(st, db, ids, i + 1, down);
  }

  function ErrorOf(current: set<int>, db: Snapshot, id: int): string {
    if id !in current && id !in db.hparams then "error fetching trial metadata"
    else "error fetching time series of metrics"
  }

  lemma {:induction false} ScanErrorNext(st: Stream, db: Snapshot, rest: seq<int>, v: int, down: Sampler)
    requires !Fetchable(st.current, db, v) && AllFetchable(st.current, db, rest)
    ensures Scan(st, db, rest + [v], down) == Failure(ErrorOf(st.current, db, v))
  {
    ScanSucceedsExactly(st, db, rest, down);
    ScanEntries(st, db, rest, down);
    ScanSnoc(st, db, rest, v, down);
    assert v !in rest;
    VisitError(Scan(st, db, rest, down).value, db, v, down);
  }

  lemma {:induction false} VisitError(sc: Scanned, db: Snapshot, v: int, down: Sampler)
    requires !Fetchable(sc.stream.current, db, v)
    ensures Visit(sc, db, v, down) == Failure(ErrorOf(sc.stream.current, db, v))
  {
  }

  lemma {:induction false} VisitSucceeds(sc: Scanned, db: Snapshot, v: int, down: Sampler)
    ensures Visit(sc, db, v, down).Success? <==> Fetchable(sc.stream.current, db, v)
  {
  }

  // ----- replaying the deltas

  predicate AllFit(ids: seq<int>) {
    forall i :: 0 <= i < |ids| ==> Fits(ids[i])
  }

  predicate EveryIdFits(inputs: seq<Input>) {
    forall n :: 0 <= n < |inputs| ==> AllFit(inputs[n].db.top)
  }

  /** After each round so far, the client's copy was exactly that round's top trials. */
  predicate Replays(inputs: seq<Input>, down: Sampler)
    requires Rounds(inputs, down).Some?
  {
    inputs == [] ||
    (var n := |inputs| - 1;
     && Rounds(inputs[..n], down).Some? && Replays(inputs[..n], down)
     && Replica(Rounds(inputs, down).value.responses) == SetOf(inputs[n].db.top))
  }

  /** The stream knows the top trials of the last round, and has cursors for those only. */
  predicate UpToDate(st: Stream, top: seq<int>) {
    st.current == SetOf(top) && st.cursors.Keys <= SetOf(top)
  }

  function LastTop(inputs: seq<Input>): seq<int> {
    if inputs == [] then [] else inputs[|inputs| - 1].db.top
  }

  lemma {:induction false} SmallIdsUnchanged(ids: seq<int>)
    requires AllFit(ids)
    ensures AllTo32(ids) == ids
  {
    forall i | 0 <= i < |ids| ensures To32(ids[i]) == ids[i] { To32Facts(ids[i]); }
  }

  lemma {:induction false} RoundReplays(st: Stream, last: seq<int>, db: Snapshot, order: seq<int>, down: Sampler)
    requires UpToDate(st, last) && AllFit(last) && AllFit(db.top)
    requires OrderOk(st, db, order, down) && Round(st, db, order, down).Success?
    ensures var t := Round(st, db, order, down).value;
            && UpToDate(t.stream, db.top)
            && st.current + SetOf(t.response.promoted) - SetOf(t.response.demoted) == SetOf(db.top)
  {
    var sc := Scan(st, db, db.top, down).value;
    ScanEntries(st, db, db.top, down);
    var dropped := Dropped(sc.stream.current, db.top);
    ListsSet(order, dropped);
    assert dropped == SetOf(last) - SetOf(db.top);
    forall i | 0 <= i < |order| ensures Fits(order[i]) {
      assert order[i] in SetOf(order);
      var k :| 0 <= k < |last| && last[k] == order[i];
    }
    SmallIdsUnchanged(order);
    forall id | id in db.top ensures To32(id) == id {
      var k :| 0 <= k < |db.top| && db.top[k] == id;
      To32Facts(id);
    }
    assert SetOf(sc.promoted) == SetOf(db.top) - st.current;
  }

  lemma {:induction false} ReplicaFits(inputs: seq<Input>, down: Sampler, id: int)
    requires Rounds(inputs, down).Some? && id in Replica(Rounds(inputs, down).value.responses)
    ensures Fits(id)
  {
    if inputs != [] {
      var n := |inputs| - 1;
      var before, all := Rounds(inputs[..n], down).value, Rounds(inputs, down).value;
      assert all.responses[..|all.responses| - 1] == before.responses;
      var sc := Scan(before.stream, inputs[n].db, inputs[n].db.top, down).value;
      ScanEntries(before.stream, inputs[n].db, inputs[n].db.top, down);
      if id in Replica(before.responses) {
        ReplicaFits(inputs[..n], down, id);
      } else {
        assert id in SetOf(sc.promoted);
        var x :| x in inputs[n].db.top && x !in before.stream.current && To32(x) == id;
        To32Facts(x);
      }
    }
  }

  lemma {:induction false} FittingStream(inputs: seq<Input>, down: Sampler)
    requires Rounds(inputs, down).Some? && EveryIdFits(inputs)
    ensures Replays(inputs, down)
    ensures var s := Rounds(inputs, down).value;
            UpToDate(s.stream, LastTop(inputs)) && Replica(s.responses) == SetOf(LastTop(inputs))
  {
    if inputs != [] {
      var n := |inputs| - 1;
      assert EveryIdFits(inputs[..n]);
      FittingStream(inputs[..n], down);
      var before, all := Rounds(inputs[..n], down).value, Rounds(inputs, down).value;
      assert AllFit(LastTop(inputs[..n])) by {
        if n > 0 { assert inputs[..n][n - 1] == inputs[n - 1]; }
      }
      RoundReplays(before.stream, LastTop(inputs[..n]), inputs[n].db, inputs[n].order, down);
      assert all.responses[..|all.responses| - 1] == before.responses;
    }
  }

  /** A client's copy holds 32-bit ids only, so it can only match a top list of such ids. */
  lemma {:induction false} MatchMeansFit(inputs: seq<Input>, down: Sampler, top: seq<int>)
    requires Rounds(inputs, down).Some? && Replica(Rounds(inputs, down).value.responses) == SetOf(top)
    ensures AllFit(top)
  {
    forall i | 0 <= i < |top| ensures Fits(top[i]) {
      assert top[i] in SetOf(top);
      ReplicaFits(inputs, down, top[i]);
    }
  }

  lemma {:induction false} ReplaysBefore(inputs: seq<Input>, down: Sampler)
    requires inputs != [] && Rounds(inputs, down).Some? && Replays(inputs, down)
    ensures var prefix := inputs[..|inputs| - 1];
            Rounds(prefix, down).Some? && Replays(prefix, down)
    ensures Replica(Rounds(inputs, down).value.responses) == SetOf(inputs[|inputs| - 1].db.top)
  {
  }

  lemma {:induction false} EveryIdFitsNext(inputs: seq<Input>)
    requires inputs != []
    requires EveryIdFits(inputs[..|inputs| - 1]) && AllFit(inputs[|inputs| - 1].db.top)
    ensures EveryIdFits(inputs)
  {
    forall n | 0 <= n < |inputs| ensures AllFit(inputs[n].db.top) {
      if n < |inputs| - 1 { assert inputs[..|inputs| - 1][n] == inputs[n]; }
    }
  }

  lemma {:induction false} ReplayMeansFit(inputs: seq<Input>, down: Sampler)
    requires Rounds(inputs, down).Some? && Replays(inputs, down)
    ensures EveryIdFits(inputs)
  {
    if inputs != [] {
      ReplaysBefore(inputs, down);
      ReplayMeansFit(inputs[..|inputs| - 1], down);
      MatchMeansFit(inputs, down, inputs[|inputs| - 1].db.top);
      EveryIdFitsNext(inputs);
    }
  }

  /** Delta replay: folding the promoted and demoted lists from the empty set gives every round's
      top-trial set exactly when every trial id fits in 32 bits. */
  lemma {:induction false} DeltaReplay(inputs: seq<Input>, down: Sampler)
    requires Rounds(inputs, down).Some?
    ensures Replays(inputs, down) <==> EveryIdFits(inputs)
  {
    if EveryIdFits(inputs) { FittingStream(inputs, down); }
    if Replays(inputs, down) { ReplayMeansFit(inputs, down); }
  }

  // ----- what the responses carry

  /** One entry per top trial, with the stored hyperparameters exactly for those that are new to
      `current`, and the same ones announced as promoted, in the order of the list. */
  predicate ResponseOk(current: set<int>, db: Snapshot, r: Response) {
    && |r.trials| == |db.top|
    && (forall i :: 0 <= i < |r.trials| ==> EntryOk(current, db, db.top, i, r.trials[i]))
    && r.promoted == WithHparams(r.trials)
  }

  /** Every response of a stream, when the ids fit: the trials that are new to it are those that were
      not top trials in the round before. */
  lemma {:induction false} ResponsesExactly(inputs: seq<Input>, down: Sampler, all: Sent, k: nat)
    requires Rounds(inputs, down) == Some(all) && EveryIdFits(inputs) && k < |inputs|
    ensures |all.responses| == |inputs|
    ensures ResponseOk(SetOf(LastTop(inputs[..k])), inputs[k].db, all.responses[k])
  {
    var n := |inputs| - 1;
    var prefix, before := inputs[..n], Rounds(inputs[..n], down).value;
    FitsBefore(inputs);
    var last := LastFits(inputs, prefix, down, all, before);
    if k < n {
      ResponsesExactly(prefix, down, before, k);
      assert prefix[..k] == inputs[..k] && prefix[k] == inputs[k];
    }
  }

  lemma {:induction false} LastFits(inputs: seq<Input>, prefix: seq<Input>, down: Sampler, all: Sent, before: Sent)
    returns (last: Response)
    requires inputs != [] && prefix == inputs[..|inputs| - 1] && EveryIdFits(prefix)
    requires Rounds(inputs, down) == Some(all) && Rounds(prefix, down) == Some(before)
    ensures |before.responses| == |prefix| && all.responses == before.responses + [last]
    ensures ResponseOk(SetOf(LastTop(prefix)), inputs[|inputs| - 1].db, last)
  {
    FittingStream(prefix, down);
    ResponseCount(prefix, down);
    last := LastResponse(inputs, down, all, before);
  }

  lemma {:induction false} FitsBefore(inputs: seq<Input>)
    requires inputs != [] && EveryIdFits(inputs)
    ensures EveryIdFits(inputs[..|inputs| - 1])
  {
    var prefix := inputs[..|inputs| - 1];
    assert forall m :: 0 <= m < |prefix| ==> prefix[m] == inputs[m];
  }

  lemma {:induction false} LastResponse(inputs: seq<Input>, down: Sampler, all: Sent, before: Sent) returns (last: Response)
    requires inputs != [] && Rounds(inputs, down) == Some(all) && Rounds(inputs[..|inputs| - 1], down) == Some(before)
    ensures all.responses == before.responses + [last]
    ensures ResponseOk(before.stream.current, inputs[|inputs| - 1].db, last)
  {
    var n := |inputs| - 1;
    ScanEntries(before.stream, inputs[n].db, inputs[n].db.top, down);
    last := Round(before.stream, inputs[n].db, inputs[n].order, down).value.response;
  }

  lemma {:induction false} ResponseCount(inputs: seq<Input>, down: Sampler)
    requires Rounds(inputs, down).Some?
    ensures |Rounds(inputs, down).value.responses| == |inputs|
  {
    if inputs != [] { ResponseCount(inputs[..|inputs| - 1], down); }
  }

  const WIDE: Snapshot := Snapshot([TWO31], map[TWO31 := []], map[TWO31 := ""])

  lemma {:induction false} WideScan(down: Sampler)
    ensures var sc := Scan(START, WIDE, WIDE.top, down);
            sc.Success? && sc.value.promoted == [-TWO31] && sc.value.stream.current == {TWO31}
  {
    assert WIDE.top[..0] == [];
    assert Scan(START, WIDE, [], down) == Success(Scanned(START, [], []));
    assert To32(TWO31) == -TWO31;
  }

  lemma {:induction false} WideDrops(down: Sampler)
    ensures OrderOk(START, WIDE, [], down) && SetOf(AllTo32([])) == {}
  {
    WideScan(down);
    assert Dropped({TWO31}, WIDE.top) == {};
    assert AllTo32([]) == [];
  }

  lemma {:induction false} WideSets()
    ensures SetOf([-TWO31]) == {-TWO31} && SetOf(WIDE.top) == {TWO31}
  {
  }

  /** Why the ids must fit: a trial numbered 2^31 is announced as -2^31. */
  lemma {:induction false} WideIdMisreplays(down: Sampler)
    ensures var inputs := [Input(WIDE, [])];
            && Rounds(inputs, down).Some?
            && Replica(Rounds(inputs, down).value.responses) == {-TWO31} != SetOf(WIDE.top)
  {
    WideScan(down);
    WideDrops(down);
    WideSets();
    OneRound(WIDE, [], down);
  }

  /** And why the server goes wrong with it, too: when such a trial is dropped, the server deletes the
      id -2^31 and goes on taking 2^31 for current, without a cursor. */
  lemma {:induction false} WideIdNeverForgotten(cursors: map<int, int>)
    ensures var st := Demote(Stream({TWO31}, cursors), [TWO31]);
            st.current == {TWO31} && TWO31 !in st.cursors
  {
    assert To32(TWO31) == -TWO31 && AllTo32([TWO31]) == [-TWO31];
    WideSets();
    assert SetOf([TWO31]) == {TWO31};
  }

  lemma {:induction false} OneRound(db: Snapshot, order: seq<int>, down: Sampler)
    requires Scan(START, db, db.top, down).Success? && OrderOk(START, db, order, down)
    ensures var sc, inputs := Scan(START, db, db.top, down).value, [Input(db, order)];
            && Rounds(inputs, down).Some?
            && Replica(Rounds(inputs, down).value.responses) == SetOf(sc.promoted) - SetOf(AllTo32(order))
  {
    var inputs := [Input(db, order)];
    assert inputs[..0] == [];
    var t := Round(START, db, order, down).value;
    assert Rounds([], down) == Some(Sent(START, []));
    assert Rounds(inputs, down).value.responses == [t.response];
    assert [t.response][..0] == [];
    assert Replica([]) == {};
  }
}
