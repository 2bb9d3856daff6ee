/** What the chief/worker protocol promises over whole runs. */
module AllGatherTheorems {
  import opened Ipc
  import opened AllGather
  import opened Wrappers

  // ----- agreement and completeness

  /** In every run, even one with failed workers and missed subscriptions, whatever a worker has
      accepted as the result of a round is the chief's result of that round. */
  lemma {:induction false} Agreement(j: Job, steps: seq<Step>, w: nat, k: nat)
    requires j.WellFormed() && Run(j, steps).Some?
    requires w < |j.workers| && k < |Run(j, steps).value.workers[w].results|
    ensures var s := Run(j, steps).value;
            k < |s.chief.results| && s.workers[w].results[k] == s.chief.results[k]
  {
    RunInv(j, steps);
    assert AgreesWith(Run(j, steps).value, w);
  }

  /** As long as no gather has returned the exception flag, the result of every answered round is
      complete: the chief's contribution, then exactly one contribution of every worker. */
  lemma {:induction false} Completeness(j: Job, steps: seq<Step>, k: nat)
    requires j.WellFormed() && Run(j, steps).Some?
    requires k < |Run(j, steps).value.chief.results|
    requires UnflaggedThrough(Run(j, steps).value.chief, k)
    ensures k < |j.rounds| && Complete(j, k, Run(j, steps).value.chief.results[k])
  {
    RunInv(j, steps);
    assert Settled(j, Run(j, steps).value, k);
  }

  /** The dropped flag is what distinguishes a complete all-gather from a broken one: a flagged
      round answers with a `None` in place of a contribution. */
  lemma {:induction false} FlagMeansIncomplete(j: Job, steps: seq<Step>, k: nat)
    requires j.WellFormed() && Run(j, steps).Some?
    requires k < |Run(j, steps).value.chief.results|
    ensures k < |Run(j, steps).value.chief.flags| && k < |j.rounds|
    ensures j.rounds[k].Allgather? && PyNone !in Column(j, k) && Run(j, steps).value.chief.flags[k] ==>
              !Complete(j, k, Run(j, steps).value.chief.results[k])
  {
    RunInv(j, steps);
    var s := Run(j, steps).value;
    assert Settled(j, s, k);
    if j.rounds[k].Allgather? && PyNone !in Column(j, k) && s.chief.flags[k] {
      var items := s.chief.results[k].items;
      assert PyNone in multiset(items[1..]);
      assert PyNone !in multiset(Column(j, k));
    }
  }

  // ----- runs in which no worker raises

  predicate NoRaise(steps: seq<Step>) {
    forall i :: 0 <= i < |steps| ==> !steps[i].WorkerRaise?
  }

  predicate Calm(s: State)
    requires |s.workers| == |s.up|
  {
    && Quiet(s.chief)
    && (forall w :: 0 <= w < |s.workers| ==> s.workers[w].life.Running?)
    && (forall w, i :: 0 <= w < |s.up| && 0 <= i < |s.up[w]| ==> s.up[w][i].Serial?)
  }

  /** The serials of a calm state keep it calm. */
  lemma {:induction false} CalmWorkerStep(j: Job, s: State, step: Step)
    requires j.WellFormed() && Shaped(j, s) && Inv(j, s) && Calm(s) && Enabled(j, s, step)
    requires step.Join? || step.WorkerSend? || step.WorkerRecv?
    ensures Calm(Apply(j, s, step))
  {
    if step.WorkerRecv? { assert AgreesWith(s, step.w) && InStepWith(j, s, step.w); }
  }

  lemma {:induction false} CalmChiefStep(j: Job, s: State, step: Step)
    requires j.WellFormed() && Shaped(j, s) && Inv(j, s) && Calm(s) && Enabled(j, s, step)
    requires step.ChiefTimeout? || step.ChiefRecv? || step.ChiefGathered? || step.ChiefBroadcast?
    ensures Calm(Apply(j, s, step))
  {
    var s' := Apply(j, s, step);
    if step.ChiefRecv? {
      assert s.up[step.w][0].Serial?;
      forall w, i | 0 <= w < |s'.up| && 0 <= i < |s'.up[w]| ensures s'.up[w][i].Serial? {
        if step.w == w { assert s'.up[w][i] == s.up[w][i + 1]; }
      }
    }
  }

  lemma {:induction false} NoRaiseCalm(j: Job, steps: seq<Step>)
    requires j.WellFormed() && Run(j, steps).Some? && NoRaise(steps)
    ensures Calm(Run(j, steps).value) && Inv(j, Run(j, steps).value)
  {
    RunInv(j, steps);
    if steps != [] {
      var n := |steps| - 1;
      assert NoRaise(steps[..n]);
      NoRaiseCalm(j, steps[..n]);
      var s := Run(j, steps[..n]).value;
      if steps[n].Join? || steps[n].WorkerSend? || steps[n].WorkerRecv? {
        CalmWorkerStep(j, s, steps[n]);
      } else {
        CalmChiefStep(j, s, steps[n]);
      }
    }
  }

  /** All-gather agreement: in every exception-free run and every interleaving, any two
      participants that have finished an all-gather hold the same list, and that list is the
      chief's value followed by a permutation of the workers' values of that very round. */
  lemma {:induction false} AllGatherAgreement(j: Job, steps: seq<Step>, v: nat, w: nat, k: nat)
    requires j.WellFormed() && Run(j, steps).Some? && NoRaise(steps)
    requires v < |j.workers| && w < |j.workers|
    requires k < |Run(j, steps).value.workers[v].results| && k < |Run(j, steps).value.workers[w].results|
    ensures var s := Run(j, steps).value;
            && k < |s.chief.results| && k < |j.rounds|
            && s.workers[v].results[k] == s.workers[w].results[k] == s.chief.results[k]
            && Complete(j, k, s.workers[v].results[k])
  {
    NoRaiseCalm(j, steps);
    Agreement(j, steps, v, k);
    Agreement(j, steps, w, k);
    Completeness(j, steps, k);
  }

  // ----- barrier safety

  /** The participants are the chief and the workers; a worker enters a round by sending. */
  predicate LeftByAnyone(s: State, k: nat) {
    |s.chief.results| > k || exists w :: 0 <= w < |s.workers| && |s.workers[w].results| > k
  }

  predicate EnteredByAll(s: State, k: nat) {
    |s.chief.results| >= k && forall w :: 0 <= w < |s.workers| ==> s.workers[w].sendSerial > k
  }

  /** Nobody leaves round `k` before everybody has entered it, provided no gather up to round `k`
      returned the exception flag. */
  lemma {:induction false} BarrierSafety(j: Job, steps: seq<Step>, k: nat)
    requires j.WellFormed() && Run(j, steps).Some?
    requires LeftByAnyone(Run(j, steps).value, k)
    ensures k < |Run(j, steps).value.chief.flags|
    ensures UnflaggedThrough(Run(j, steps).value.chief, k) ==> EnteredByAll(Run(j, steps).value, k)
  {
    RunInv(j, steps);
    var s := Run(j, steps).value;
    forall w | 0 <= w < |s.workers| ensures |s.workers[w].results| <= |s.chief.results| {
      assert AgreesWith(s, w);
    }
    assert Settled(j, s, k);
  }

  /** In exception-free runs the barrier is unconditional. */
  lemma {:induction false} BarrierSafetyNoRaise(j: Job, steps: seq<Step>, k: nat)
    requires j.WellFormed() && Run(j, steps).Some? && NoRaise(steps)
    ensures LeftByAnyone(Run(j, steps).value, k) ==> EnteredByAll(Run(j, steps).value, k)
  {
    NoRaiseCalm(j, steps);
    if LeftByAnyone(Run(j, steps).value, k) { BarrierSafety(j, steps, k); }
  }

  /** A barrier whose chief reads an exception marker opens early: worker 0 raises, the chief drops
      the flag and leaves, and worker 1 has not even connected. */
  lemma {:induction false} DroppedFlagOpensBarrier()
    ensures var j := Job([Barrier], [PyNone], [[PyNone], [PyNone]]);
            var steps := [Join(0), WorkerRaise(0), ChiefRecv(0), ChiefBroadcast];
            && j.WellFormed() && Run(j, steps).Some?
            && LeftByAnyone(Run(j, steps).value, 0) && !EnteredByAll(Run(j, steps).value, 0)
            && Run(j, steps).value.chief.flags == [true]
  {
    var j := Job([Barrier], [PyNone], [[PyNone], [PyNone]]);
    var s0 := Init(j);
    OneMore(j, [], s0, Join(0));
    var s1, p1 := Apply(j, s0, Join(0)), [] + [Join(0)];
    OneMore(j, p1, s1, WorkerRaise(0));
    var s2, p2 := Apply(j, s1, WorkerRaise(0)), p1 + [WorkerRaise(0)];
    assert s2.up[0] == [Exception];
    OneMore(j, p2, s2, ChiefRecv(0));
    var s3, p3 := Apply(j, s2, ChiefRecv(0)), p2 + [ChiefRecv(0)];
    assert s3.chief.phase == Holding([PyNone], true);
    OneMore(j, p3, s3, ChiefBroadcast);
    assert p3 + [ChiefBroadcast] == [Join(0), WorkerRaise(0), ChiefRecv(0), ChiefBroadcast];
    assert Apply(j, s3, ChiefBroadcast).workers[1].sendSerial == 0;
  }

  lemma {:induction false} OneMore(j: Job, steps: seq<Step>, s: State, step: Step)
    requires j.WellFormed() && Run(j, steps) == Some(s) && Enabled(j, s, step)
    ensures Run(j, steps + [step]) == Some(Apply(j, s, step))
  {
    assert (steps + [step])[..|steps|] == steps;
  }

  // ----- synchrony

  /** In every exception-free run no serial check has failed, nobody has more than one unread
      message, and a broadcast happens only once every worker has subscribed. */
  lemma {:induction false} Synchrony(j: Job, steps: seq<Step>)
    requires j.WellFormed() && Run(j, steps).Some? && NoRaise(steps)
    ensures var s := Run(j, steps).value;
            && !s.chief.phase.Crashed?
            && (forall w :: 0 <= w < |s.workers| ==>
                  !s.workers[w].life.Broken? && |s.up[w]| <= 1 && |s.down[w]| <= 1)
            && (s.chief.phase.Holding? ==> forall w :: 0 <= w < |s.workers| ==> s.workers[w].joined)
  {
    NoRaiseCalm(j, steps);
    var s := Run(j, steps).value;
    forall w | 0 <= w < |s.workers|
      ensures !s.workers[w].life.Broken? && |s.up[w]| <= 1 && |s.down[w]| <= 1
      ensures s.chief.phase.Holding? ==> s.workers[w].joined
    {
      assert InStepWith(j, s, w);
      assert s.chief.phase.Holding? ==> Taken(s, w);
    }
  }

  /** In every exception-free run the next receive, by the chief or by a worker, passes its
      serial check. */
  lemma {:induction false} NextReceiveAccepted(j: Job, steps: seq<Step>, w: nat)
    requires j.WellFormed() && Run(j, steps).Some? && NoRaise(steps) && w < |j.workers|
    ensures var s := Run(j, steps).value;
            && (Enabled(j, s, ChiefRecv(w)) ==> ServerReceive(s.chief.recvSerial, s.up[w][0]).Payload?)
            && (Enabled(j, s, WorkerRecv(w)) ==> ClientReceive(s.workers[w].recvSerial, s.down[w][0]).Payload?)
  {
    NoRaiseCalm(j, steps);
    var s := Run(j, steps).value;
    assert InStepWith(j, s, w) && AgreesWith(s, w);
  }

  // ----- progress

  predicate Final(j: Job, s: State) {
    && |s.chief.results| == |j.rounds|
    && forall w :: 0 <= w < |s.workers| ==> s.workers[w].joined && |s.workers[w].results| == |j.rounds|
  }

  function WorkerLeft(rounds: nat, wk: Worker): int {
    (if wk.joined then 0 else 1) + 2 * (rounds - |wk.results|) - (if wk.sent then 1 else 0)
  }

  function WorkersLeft(rounds: nat, workers: seq<Worker>): int {
    if workers == [] then 0
    else WorkersLeft(rounds, workers[..|workers| - 1]) + WorkerLeft(rounds, workers[|workers| - 1])
  }

  /** The steps left: joins, sends and receives of workers, and the chief's receives, its leaving
      the loop and its broadcasts. */
  function StepsLeft(j: Job, s: State): int {
    WorkersLeft(|j.rounds|, s.workers) + Times(|j.rounds| - |s.chief.results|, |j.workers| + 2)
    - RoundDone(|j.workers|, s.chief.phase)
  }

  /** The chief's steps in the current round so far. */
  function RoundDone(n: nat, phase: Phase): int {
    match phase case Collecting(got) => |got| case Holding(_, _) => n + 1 case Crashed => 0
  }

  function Times(a: int, b: int): int {
    a * b
  }

  /** The steps of a run other than time-outs of the poll. */
  function Moves(steps: seq<Step>): nat {
    if steps == [] then 0
    else Moves(steps[..|steps| - 1]) + (if steps[|steps| - 1].ChiefTimeout? then 0 else 1)
  }

  lemma {:induction false} WorkersLeftUpdate(rounds: nat, workers: seq<Worker>, w: nat, wk: Worker)
    requires w < |workers|
    ensures WorkersLeft(rounds, workers[w := wk]) ==
            WorkersLeft(rounds, workers) - WorkerLeft(rounds, workers[w]) + WorkerLeft(rounds, wk)
  {
    var n := |workers| - 1;
    if w == n {
      assert workers[w := wk][..n] == workers[..n];
    } else {
      assert workers[w := wk][..n] == workers[..n][w := wk];
      WorkersLeftUpdate(rounds, workers[..n], w, wk);
    }
  }

  lemma {:induction false} WorkersLeftInit(rounds: nat, workers: seq<Worker>)
    requires forall w :: 0 <= w < |workers| ==> WorkerLeft(rounds, workers[w]) == 1 + 2 * rounds
    ensures WorkersLeft(rounds, workers) == |workers| * (1 + 2 * rounds)
  {
    if workers != [] {
      WorkersLeftInit(rounds, workers[..|workers| - 1]);
      assert |workers| * (1 + 2 * rounds) == (|workers| - 1) * (1 + 2 * rounds) + (1 + 2 * rounds);
    }
  }

  lemma {:induction false} WorkersLeftSign(rounds: nat, workers: seq<Worker>)
    requires forall w :: 0 <= w < |workers| ==> WorkerLeft(rounds, workers[w]) >= 0
    ensures WorkersLeft(rounds, workers) >= 0
    ensures WorkersLeft(rounds, workers) == 0 <==> forall w :: 0 <= w < |workers| ==> WorkerLeft(rounds, workers[w]) == 0
  {
    if workers != [] {
      var n := |workers| - 1;
      WorkersLeftSign(rounds, workers[..n]);
      assert workers == workers[..n] + [workers[n]];
      assert (forall w :: 0 <= w < |workers| ==> WorkerLeft(rounds, workers[w]) == 0) <==>
             ((forall w :: 0 <= w < n ==> WorkerLeft(rounds, workers[..n][w]) == 0) && WorkerLeft(rounds, workers[n]) == 0);
    }
  }

  lemma {:induction false} WorkerUsesOne(j: Job, s: State, step: Step)
    requires j.WellFormed() && Shaped(j, s) && Inv(j, s) && Calm(s)
    requires Enabled(j, s, step) && (step.Join? || step.WorkerSend? || step.WorkerRecv?)
    ensures StepsLeft(j, Apply(j, s, step)) == StepsLeft(j, s) - 1
  {
    var s', w := Apply(j, s, step), step.w;
    assert InStepWith(j, s, w) && AgreesWith(s, w);
    assert s'.chief == s.chief;
    WorkersLeftUpdate(|j.rounds|, s.workers, w, s'.workers[w]);
    assert WorkerLeft(|j.rounds|, s'.workers[w]) == WorkerLeft(|j.rounds|, s.workers[w]) - 1;
  }

  lemma {:induction false} ChiefUsesOne(j: Job, s: State, step: Step)
    requires j.WellFormed() && Shaped(j, s) && Inv(j, s) && Calm(s)
    requires Enabled(j, s, step) && (step.ChiefRecv? || step.ChiefGathered? || step.ChiefBroadcast?)
    ensures StepsLeft(j, Apply(j, s, step)) == StepsLeft(j, s) - 1
  {
    var s', n := Apply(j, s, step), |j.workers|;
    assert s'.workers == s.workers;
    match step
    case ChiefRecv(w) =>
      assert InStepWith(j, s, w);
      assert RoundDone(n, s'.chief.phase) == RoundDone(n, s.chief.phase) + 1;
    case ChiefGathered =>
      GotCount(j, s);
      assert RoundDone(n, s'.chief.phase) == RoundDone(n, s.chief.phase) + 1;
    case ChiefBroadcast =>
      OneFewer(|j.rounds| - |s.chief.results|, n + 2);
  }

  lemma {:induction false} OneFewer(a: int, b: int)
    ensures Times(a, b) == Times(a - 1, b) + b
  {
  }

  /** Every step but a time-out uses up exactly one of the steps left. */
  lemma {:induction false} StepUsesOne(j: Job, s: State, step: Step)
    requires j.WellFormed() && Shaped(j, s) && Inv(j, s) && Calm(s)
    requires Enabled(j, s, step) && !step.WorkerRaise? && !step.ChiefTimeout?
    ensures StepsLeft(j, Apply(j, s, step)) == StepsLeft(j, s) - 1
  {
    if step.Join? || step.WorkerSend? || step.WorkerRecv? {
      WorkerUsesOne(j, s, step);
    } else {
      ChiefUsesOne(j, s, step);
    }
  }

  lemma {:induction false} AtLeastOneFactor(a: nat, b: nat)
    ensures Times(a, b) >= (if a == 0 then 0 else b)
    ensures a == 0 ==> Times(a, b) == 0
  {
    if a > 0 { OneFewer(a, b); }
  }

  /** The chief's share of the steps left. */
  lemma {:induction false} ChiefLeftSign(j: Job, s: State)
    requires j.WellFormed() && Shaped(j, s) && ChiefInStep(j, s)
    ensures var left := StepsLeft(j, s) - WorkersLeft(|j.rounds|, s.workers);
            left >= 0 && (left == 0 <==> |s.chief.results| == |j.rounds|)
  {
    var n, rounds, c := |j.workers|, |j.rounds|, |s.chief.results|;
    AtLeastOneFactor(rounds - c, n + 2);
    if c < rounds && s.chief.phase.Collecting? { GotCount(j, s); }
  }

  lemma {:induction false} StepsLeftSign(j: Job, s: State)
    requires j.WellFormed() && Shaped(j, s) && Inv(j, s) && Calm(s)
    ensures StepsLeft(j, s) >= 0
    ensures StepsLeft(j, s) == 0 <==> Final(j, s)
  {
    var rounds := |j.rounds|;
    forall w | 0 <= w < |s.workers|
      ensures WorkerLeft(rounds, s.workers[w]) >= 0
      ensures WorkerLeft(rounds, s.workers[w]) == 0 <==> s.workers[w].joined && |s.workers[w].results| == rounds
    {
      assert InStepWith(j, s, w) && AgreesWith(s, w);
    }
    WorkersLeftSign(rounds, s.workers);
    ChiefLeftSign(j, s);
  }

  /** In every exception-free run the moves made and the steps left add up to the same total, so
      no run makes more moves than that, and a run that has made them all is finished. */
  lemma {:induction false} MovesBounded(j: Job, steps: seq<Step>)
    requires j.WellFormed() && Run(j, steps).Some? && NoRaise(steps)
    ensures var total := |j.workers| * (1 + 2 * |j.rounds|) + |j.rounds| * (|j.workers| + 2);
            && Moves(steps) + StepsLeft(j, Run(j, steps).value) == total
            && Moves(steps) <= total
            && (Moves(steps) == total <==> Final(j, Run(j, steps).value))
  {
    NoRaiseCalm(j, steps);
    StepsLeftSign(j, Run(j, steps).value);
    if steps == [] {
      WorkersLeftInit(|j.rounds|, Init(j).workers);
    } else {
      var n := |steps| - 1;
      assert NoRaise(steps[..n]);
      MovesBounded(j, steps[..n]);
      NoRaiseCalm(j, steps[..n]);
      if !steps[n].ChiefTimeout? { StepUsesOne(j, Run(j, steps[..n]).value, steps[n]); }
    }
  }

  /** Some step that is neither a time-out nor a failure can be taken. */
  ghost predicate CanMove(j: Job, s: State)
    requires Shaped(j, s)
  {
    exists step :: Enabled(j, s, step) && !step.ChiefTimeout? && !step.WorkerRaise?
  }

  /** A worker whose message of the current round has not been taken, or that is a round behind,
      can move or be read from. */
  lemma {:induction false} LaggardMoves(j: Job, s: State, w: nat)
    requires j.WellFormed() && Shaped(j, s) && Inv(j, s) && Calm(s) && w < |s.workers|
    requires s.workers[w].joined
    requires |s.workers[w].results| < |s.chief.results| ||
             (s.chief.phase.Collecting? && |s.chief.results| < |j.rounds| &&
              |s.chief.phase.got| < |s.workers| && !Taken(s, w))
    ensures CanMove(j, s)
  {
    assert InStepWith(j, s, w) && AgreesWith(s, w);
    assert Enabled(j, s, WorkerSend(w)) || Enabled(j, s, WorkerRecv(w)) || Enabled(j, s, ChiefRecv(w));
  }

  /** No deadlock: after every exception-free run, either everybody has finished the whole program
      or some participant can move. */
  lemma {:induction false} Progress(j: Job, steps: seq<Step>)
    requires j.WellFormed() && Run(j, steps).Some? && NoRaise(steps)
    ensures Final(j, Run(j, steps).value) || CanMove(j, Run(j, steps).value)
  {
    NoRaiseCalm(j, steps);
    var s := Run(j, steps).value;
    if w :| 0 <= w < |s.workers| && !s.workers[w].joined {
      assert Enabled(j, s, Join(w));
    } else if s.chief.phase.Holding? {
      assert Enabled(j, s, ChiefBroadcast);
    } else if w :| 0 <= w < |s.workers| && |s.workers[w].results| < |s.chief.results| {
      LaggardMoves(j, s, w);
    } else if |s.chief.results| < |j.rounds| {
      GotCount(j, s);
      if w :| 0 <= w < |s.workers| && !Taken(s, w) {
        LaggardMoves(j, s, w);
      } else {
        assert Enabled(j, s, ChiefGathered);
      }
    } else {
      forall w | 0 <= w < |s.workers| ensures |s.workers[w].results| == |j.rounds| {
        assert AgreesWith(s, w);
      }
    }
  }
}
