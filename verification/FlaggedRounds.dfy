/** What an exception marker does to the rounds that follow it: the gather that reads it leaves the
    expected serial where it was, so no later gather can be filled. */
module FlaggedRounds {
  import opened Ipc
  import opened Wrappers
  import opened AllGather
  import opened AllGatherTheorems

  /** A worker's PUSH queue: serials strictly increase and have been used, and a marker is the last
      thing a worker sends. */
  predicate QueueOk(s: State, w: nat)
    requires |s.workers| == |s.up| && w < |s.up|
  {
    var q := s.up[w];
    && (forall i :: 0 <= i < |q| ==> if q[i].Serial? then q[i].serial < s.workers[w].sendSerial
                                     else i == |q| - 1 && s.workers[w].life.Raising?)
    && (forall i, k :: 0 <= i < k < |q| && q[i].Serial? && q[k].Serial? ==> q[i].serial < q[k].serial)
  }

  /** The message with serial `b` is in the worker's queue, or may still be sent. */
  predicate Offers(s: State, b: nat, w: nat)
    requires |s.workers| == |s.up| && w < |s.up|
  {
    || (s.workers[w].life.Running? && s.workers[w].sendSerial <= b)
    || exists i :: 0 <= i < |s.up[w]| && s.up[w][i].Serial? && s.up[w][i].serial == b
  }

  function Offering(s: State, b: nat): set<nat>
    requires |s.workers| == |s.up|
  {
    set w: nat | w < |s.workers| && Offers(s, b, w)
  }

  /** Some gather has read a marker. */
  predicate Flagged(c: Chief) {
    !Quiet(c)
  }

  /** From the first marker on, the gather in progress cannot be filled, and every gather that has
      returned since was flagged. */
  predicate Stuck(s: State)
    requires |s.workers| == |s.up|
  {
    match s.chief.phase
    case Collecting(got) => |got| + |Offering(s, s.chief.recvSerial)| < |s.workers|
    case Holding(_, exception) => exception && |Offering(s, s.chief.recvSerial)| < |s.workers|
    case Crashed => true
  }

  predicate FlagsStay(flags: seq<bool>) {
    forall i, k :: 0 <= i <= k < |flags| && flags[i] ==> flags[k]
  }

  predicate MarkerInv(s: State)
    requires |s.workers| == |s.up|
  {
    && (forall w :: 0 <= w < |s.workers| ==> QueueOk(s, w))
    && FlagsStay(s.chief.flags)
    && (Flagged(s.chief) ==> Stuck(s))
  }

  lemma {:induction false} SubsetSize<T>(a: set<T>, b: set<T>)
    requires a <= b
    ensures |a| <= |b|
  {
    assert |b| == |a| + |b - a| by { assert b == a + (b - a); }
  }

  /** A step that does not touch the chief leaves it stuck if it makes nobody offer anew. */
  lemma {:induction false} StuckStays(s: State, s': State)
    requires |s.workers| == |s.up| == |s'.workers| == |s'.up| && s'.chief == s.chief
    requires Offering(s', s.chief.recvSerial) <= Offering(s, s.chief.recvSerial)
    requires Flagged(s.chief) ==> Stuck(s)
    ensures Flagged(s'.chief) ==> Stuck(s')
  {
    SubsetSize(Offering(s', s.chief.recvSerial), Offering(s, s.chief.recvSerial));
  }

  lemma {:induction false} WorkerStepMarkers(j: Job, s: State, step: Step)
    requires j.WellFormed() && Shaped(j, s) && Enabled(j, s, step) && MarkerInv(s)
    requires step.Join? || step.WorkerRecv? || step.WorkerSend? || step.WorkerRaise?
    ensures MarkerInv(Apply(j, s, step))
  {
    var s', b, w := Apply(j, s, step), s.chief.recvSerial, step.w;
    forall v | 0 <= v < |s.workers| ensures QueueOk(s', v) {
      assert QueueOk(s, v);
    }
    forall v: nat | v < |s.workers| && Offers(s', b, v) ensures Offers(s, b, v) {
      if v == w && !(s'.workers[w].life.Running? && s'.workers[w].sendSerial <= b) {
        var i :| 0 <= i < |s'.up[w]| && s'.up[w][i].Serial? && s'.up[w][i].serial == b;
        if i < |s.up[w]| { assert s.up[w][i] == s'.up[w][i]; }
      }
    }
    StuckStays(s, s');
  }

  /** Reading a worker's head leaves it at most what it offered, and nothing of what was read. */
  lemma {:induction false} HeadRead(j: Job, s: State, w: nat)
    requires j.WellFormed() && Shaped(j, s) && Enabled(j, s, ChiefRecv(w)) && QueueOk(s, w)
    ensures var s', b := Apply(j, s, ChiefRecv(w)), s.chief.recvSerial;
            && QueueOk(s', w)
            && (Offers(s', b, w) ==> Offers(s, b, w))
            && (!s.up[w][0].Serial? ==> !Offers(s', b, w))
            && (s.up[w][0].Serial? && s.up[w][0].serial == b ==> Offers(s, b, w) && !Offers(s', b, w))
  {
    var s', b, q := Apply(j, s, ChiefRecv(w)), s.chief.recvSerial, s.up[w];
    assert s'.up[w] == q[1..];
    assert forall i :: 0 <= i < |q| - 1 ==> s'.up[w][i] == q[i + 1];
    if Offers(s', b, w) && !(s'.workers[w].life.Running? && s'.workers[w].sendSerial <= b) {
      var i :| 0 <= i < |s'.up[w]| && s'.up[w][i].Serial? && s'.up[w][i].serial == b;
      assert q[i + 1] == s'.up[w][i];
    }
  }

  lemma {:induction false} ChiefRecvMarkers(j: Job, s: State, w: nat)
    requires j.WellFormed() && Shaped(j, s) && Enabled(j, s, ChiefRecv(w)) && MarkerInv(s)
    ensures MarkerInv(Apply(j, s, ChiefRecv(w)))
  {
    var s', b := Apply(j, s, ChiefRecv(w)), s.chief.recvSerial;
    HeadRead(j, s, w);
    forall v | 0 <= v < |s.workers| ensures QueueOk(s', v) {
      assert QueueOk(s, v);
    }
    assert Offering(s', b) <= Offering(s, b) by {
      assert forall v: nat :: v < |s.workers| && v != w ==> (Offers(s', b, v) <==> Offers(s, b, v));
    }
    RecvStuck(j, s, w);
  }

  lemma {:induction false} RecvStuck(j: Job, s: State, w: nat)
    requires j.WellFormed() && Shaped(j, s) && Enabled(j, s, ChiefRecv(w)) && MarkerInv(s)
    requires var s' := Apply(j, s, ChiefRecv(w)); Offering(s', s.chief.recvSerial) <= Offering(s, s.chief.recvSerial)
    ensures var s' := Apply(j, s, ChiefRecv(w)); Flagged(s'.chief) ==> Stuck(s')
  {
    var s', b := Apply(j, s, ChiefRecv(w)), s.chief.recvSerial;
    HeadRead(j, s, w);
    if s.up[w][0].Exception? {
      OneSilent(s', b, w);
    } else if s.up[w][0].Serial? && s.up[w][0].serial == b {
      SubsetSize(Offering(s', b), Offering(s, b) - {w});
    }
  }

  lemma {:induction false} OneSilent(s: State, b: nat, w: nat)
    requires |s.workers| == |s.up| && w < |s.workers| && !Offers(s, b, w)
    ensures |Offering(s, b)| < |s.workers|
  {
    SubsetSize(Offering(s, b), Below(|s.workers|) - {w});
  }

  /** The worker numbers. */
  function Below(n: nat): (r: set<nat>)
    ensures forall v: nat :: v in r <==> v < n
    ensures |r| == n
  {
    if n == 0 then {} else
      var rest := Below(n - 1);
      assert n - 1 !in rest;
      rest + {n - 1}
  }

  lemma {:induction false} ChiefStepMarkers(j: Job, s: State, step: Step)
    requires j.WellFormed() && Shaped(j, s) && Enabled(j, s, step) && MarkerInv(s)
    requires |s.chief.flags| == |s.chief.results|
    requires step.ChiefTimeout? || step.ChiefGathered? || step.ChiefBroadcast?
    ensures MarkerInv(Apply(j, s, step))
  {
    var s', b := Apply(j, s, step), s.chief.recvSerial;
    forall v | 0 <= v < |s.workers| ensures QueueOk(s', v) {
      assert QueueOk(s, v);
    }
    assert step.ChiefTimeout? || step.ChiefBroadcast? ==> Offering(s', b) == Offering(s, b);
    if step.ChiefBroadcast? {
      assert Flagged(s'.chief) ==> Flagged(s.chief);
    }
  }

  lemma {:induction false} RunMarkers(j: Job, steps: seq<Step>)
    requires j.WellFormed() && Run(j, steps).Some?
    ensures MarkerInv(Run(j, steps).value)
  {
    if steps != [] {
      var n := |steps| - 1;
      RunMarkers(j, steps[..n]);
      RunInv(j, steps[..n]);
      var s := Run(j, steps[..n]).value;
      match steps[n]
      case ChiefRecv(w) => ChiefRecvMarkers(j, s, w);
      case ChiefTimeout | ChiefGathered | ChiefBroadcast => ChiefStepMarkers(j, s, steps[n]);
      case _ => WorkerStepMarkers(j, s, steps[n]);
    }
  }

  // ----- exactly which rounds are complete

  /** Once a gather has been flagged, so is every gather after it. */
  lemma {:induction false} FlagsNeverClear(j: Job, steps: seq<Step>, i: nat, k: nat)
    requires j.WellFormed() && Run(j, steps).Some?
    requires i <= k < |Run(j, steps).value.chief.flags| && Run(j, steps).value.chief.flags[i]
    ensures Run(j, steps).value.chief.flags[k]
  {
    RunMarkers(j, steps);
  }

  /** In every run of any mix of barriers and all-gathers, an answered all-gather is complete if its
      own gather was not flagged; and only then, unless some worker contributes `None` to it. */
  lemma {:induction false} CompleteExactly(j: Job, steps: seq<Step>, k: nat)
    requires j.WellFormed() && Run(j, steps).Some? && k < |Run(j, steps).value.chief.results|
    ensures k < |j.rounds| && k < |Run(j, steps).value.chief.flags|
    ensures !Run(j, steps).value.chief.flags[k] ==> Complete(j, k, Run(j, steps).value.chief.results[k])
    ensures j.rounds[k].Allgather? && PyNone !in Column(j, k) ==>
              (Complete(j, k, Run(j, steps).value.chief.results[k]) <==> !Run(j, steps).value.chief.flags[k])
  {
    RunInv(j, steps);
    RunMarkers(j, steps);
    var c := Run(j, steps).value.chief;
    FlagMeansIncomplete(j, steps, k);
    if !c.flags[k] {
      assert UnflaggedThrough(c, k);
      Completeness(j, steps, k);
    }
  }

  /** The only worker raises before it sends anything, and the chief reads the marker. */
  lemma {:induction false} RaisesAtOnce(j: Job)
    requires j.WellFormed() && |j.workers| == 1 && |j.rounds| > 0
    ensures var steps := [Join(0), WorkerRaise(0), ChiefRecv(0)];
            && Run(j, steps).Some?
            && Run(j, steps).value.chief == Chief(Holding([PyNone], true), 0, 0, [], [])
  {
    var s0 := Init(j);
    OneMore(j, [], s0, Join(0));
    var s1, p1 := Apply(j, s0, Join(0)), [] + [Join(0)];
    OneMore(j, p1, s1, WorkerRaise(0));
    var s2, p2 := Apply(j, s1, WorkerRaise(0)), p1 + [WorkerRaise(0)];
    assert s2.up[0] == [Exception];
    OneMore(j, p2, s2, ChiefRecv(0));
    assert Apply(j, s2, ChiefRecv(0)).chief.phase.ms == [PyNone];
    assert p2 + [ChiefRecv(0)] == [Join(0), WorkerRaise(0), ChiefRecv(0)];
  }

  /** Why that exception is needed: a worker whose contribution is `None` raises before it sends, and
      the gather's own `None` stands in for it. */
  lemma {:induction false} CompleteByAccident(x: PyObj)
    ensures var j := Job([Allgather], [x], [[PyNone]]);
            var steps := [Join(0), WorkerRaise(0), ChiefRecv(0)] + [ChiefBroadcast];
            && j.WellFormed() && Run(j, steps).Some?
            && Run(j, steps).value.chief.flags == [true]
            && Run(j, steps).value.chief.results == [PyList([x] + [PyNone])]
            && Complete(j, 0, PyList([x] + [PyNone]))
  {
    var j := Job([Allgather], [x], [[PyNone]]);
    var steps := [Join(0), WorkerRaise(0), ChiefRecv(0)];
    RaisesAtOnce(j);
    OneMore(j, steps, Run(j, steps).value, ChiefBroadcast);
    assert Column(j, 0) == [PyNone] && ([x] + [PyNone])[1..] == [PyNone];
  }

  // ----- exactly which runs keep the barrier

  /** Nobody has left a round that somebody has not entered. */
  ghost predicate BarrierSafe(s: State) {
    forall k: nat :: LeftByAnyone(s, k) ==> EnteredByAll(s, k)
  }

  ghost predicate AlwaysSafe(j: Job, steps: seq<Step>)
    requires j.WellFormed() && Run(j, steps).Some?
  {
    && BarrierSafe(Run(j, steps).value)
    && (steps == [] ||
        (Run(j, steps[..|steps| - 1]).Some? && AlwaysSafe(j, steps[..|steps| - 1])))
  }

  /** The chief is about to answer a flagged gather although some worker has not sent for it. */
  predicate Rash(s: State, step: Step) {
    && step.ChiefBroadcast? && s.chief.phase.Holding? && s.chief.phase.exception
    && exists w :: 0 <= w < |s.workers| && s.workers[w].sendSerial <= |s.chief.results|
  }

  predicate NeverRash(j: Job, steps: seq<Step>)
    requires j.WellFormed() && Run(j, steps).Some?
  {
    steps == [] ||
    (Run(j, steps[..|steps| - 1]).Some? && NeverRash(j, steps[..|steps| - 1]) &&
     !Rash(Run(j, steps[..|steps| - 1]).value, steps[|steps| - 1]))
  }

  /** The barrier is safe exactly when every worker has sent for every answered round. */
  lemma {:induction false} SafeMeansAllSent(j: Job, s: State)
    requires j.WellFormed() && Shaped(j, s) && Inv(j, s)
    ensures BarrierSafe(s) <==>
            forall w :: 0 <= w < |s.workers| ==> s.workers[w].sendSerial >= |s.chief.results|
  {
    var c := |s.chief.results|;
    forall w | 0 <= w < |s.workers| ensures |s.workers[w].results| <= c {
      assert AgreesWith(s, w);
    }
    if BarrierSafe(s) && c > 0 { assert LeftByAnyone(s, c - 1) && EnteredByAll(s, c - 1); }
  }

  lemma {:induction false} SafeStep(j: Job, s: State, step: Step)
    requires j.WellFormed() && Shaped(j, s) && Inv(j, s) && MarkerInv(s) && Enabled(j, s, step) && BarrierSafe(s)
    ensures BarrierSafe(Apply(j, s, step)) <==> !Rash(s, step)
  {
    var s' := Apply(j, s, step);
    StepInv(j, s, step);
    SafeMeansAllSent(j, s);
    SafeMeansAllSent(j, s');
    if step.ChiefBroadcast? && !s.chief.phase.exception {
      BroadcastSync(j, s);
    }
  }

  /** Exactly when the barrier holds throughout a run: the chief never answers a flagged gather while
      some worker has yet to send for that round. */
  lemma {:induction false} BarrierExactly(j: Job, steps: seq<Step>)
    requires j.WellFormed() && Run(j, steps).Some?
    ensures AlwaysSafe(j, steps) <==> NeverRash(j, steps)
  {
    RunInv(j, steps);
    if steps == [] {
      SafeMeansAllSent(j, Init(j));
    } else {
      var n := |steps| - 1;
      BarrierExactly(j, steps[..n]);
      RunInv(j, steps[..n]);
      RunMarkers(j, steps[..n]);
      if AlwaysSafe(j, steps[..n]) { SafeStep(j, Run(j, steps[..n]).value, steps[n]); }
    }
  }
}
