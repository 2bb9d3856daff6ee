/** What the parent is told, and why: where every report comes from, and what each message makes the
    actor report, order and send to itself. */
module ContainerReports {
  import opened Wrappers
  import opened ContainerActor
  import opened ContainerRuns

  // ----- where a report comes from

  predicate Launched(steps: seq<Step>, info: nat) {
    exists k :: 0 <= k < |steps| && steps[k].Launch? && steps[k].info == info
  }

  predicate Docked(steps: seq<Step>) {
    PullFail in steps || CreateFail in steps || WaitFail in steps || KillFail in steps
  }

  predicate ChildBroke(steps: seq<Step>) {
    CheckerFail in steps || DockerFail in steps
  }

  predicate Interrupted(steps: seq<Step>) {
    Signalled(Sigint) in steps || Signalled(Sigterm) in steps || Signalled(Sigkill) in steps
  }

  /** The step that a queued message goes back to. */
  predicate Sourced(steps: seq<Step>, m: Message) {
    match m
    case ImagePulled => PullOk in steps
    case ContainerStarted(info, checkable) => Launch(info, checkable) in steps
    case ContainerTerminated(code) => Exit(code) in steps
    case SignalContainer(signal) => Signalled(signal) in steps
    case ChildFailed => ChildBroke(steps)
    case DockerErr => Docked(steps)
    case _ => true
  }

  /** The step that a report goes back to. */
  predicate Explained(steps: seq<Step>, r: Report) {
    match r
    case Changed(stage) => stage.Pulling? || (stage.Starting? && PullOk in steps)
    case Started(info) => Launched(steps, info)
    case Stopped(Exited(code)) => Exit(code) in steps
    case Stopped(Aborted) => Interrupted(steps)
    case Stopped(Errored) => Docked(steps) || ChildBroke(steps)
  }

  predicate WellSourced(steps: seq<Step>, s: Sys) {
    && (forall i :: 0 <= i < |s.inbox| ==> Sourced(steps, s.inbox[i]))
    && (s.actor.info.Some? ==> Launched(steps, s.actor.info.value))
    && (forall i :: 0 <= i < |s.reports| ==> Explained(steps, s.reports[i]))
  }

  lemma {:induction false} LaunchedBy(steps: seq<Step>, info: nat, checkable: bool)
    requires Launch(info, checkable) in steps
    ensures Launched(steps, info)
  {
  }

  /** More steps explain no less. */
  lemma {:induction false} StillSourced(steps: seq<Step>, step: Step, s: Sys)
    requires WellSourced(steps, s)
    ensures WellSourced(steps + [step], s)
  {
    var more := steps + [step];
    assert forall x :: x in steps ==> x in more;
    forall info: nat | Launched(steps, info) ensures Launched(more, info) {
      var k :| 0 <= k < |steps| && steps[k].Launch? && steps[k].info == info;
      assert more[k] == steps[k];
    }
  }

  /** The message a step posts goes back to that very step. */
  lemma {:induction false} PostSourced(s: Sys, step: Step, steps: seq<Step>)
    requires Enabled(s, step) && !step.Deliver? && step in steps && WellSourced(steps, s)
    ensures WellSourced(steps, Apply(s, step))
  {
    var s' := Apply(s, step);
    assert s'.actor == s.actor && s'.reports == s.reports;
    assert s.inbox <= s'.inbox && |s'.inbox| <= |s.inbox| + 1;
    if |s'.inbox| > |s.inbox| { assert Sourced(steps, s'.inbox[|s.inbox|]); }
  }

  lemma {:induction false} HandleSourced(a: Actor, m: Message, steps: seq<Step>)
    requires Sourced(steps, m) && (a.info.Some? ==> Launched(steps, a.info.value))
    ensures var o := Handle(a, m);
            && (o.actor.info.Some? ==> Launched(steps, o.actor.info.value))
            && (forall i :: 0 <= i < |o.reports| ==> Explained(steps, o.reports[i]))
            && (forall i :: 0 <= i < |o.mail| ==> Sourced(steps, o.mail[i]))
  {
    if m.ContainerStarted? { LaunchedBy(steps, m.info, m.checkable); }
  }

  lemma {:induction false} DeliverSourced(s: Sys, steps: seq<Step>)
    requires Enabled(s, Deliver) && WellSourced(steps, s)
    ensures WellSourced(steps, Delivered(s))
  {
    HandleSourced(s.actor, s.inbox[0], steps);
  }

  /** Every report goes back to a step that justifies it: a stop with an exit code to an exit with that
      very code, a start to a launch with those very details, an abort to an interrupting signal, an
      error to a failure, and the announced set-up to a pulled image. */
  lemma {:induction false} RunExplained(spec: Spec, steps: seq<Step>)
    requires Run(spec, steps).Some?
    ensures WellSourced(steps, Run(spec, steps).value)
  {
    if steps != [] {
      var rest, step := steps[..|steps| - 1], steps[|steps| - 1];
      var s := Run(spec, rest).value;
      RunExplained(spec, rest);
      StillSourced(rest, step, s);
      assert steps == rest + [step];
      if step.Deliver? { DeliverSourced(s, steps); } else { PostSourced(s, step, steps); }
    }
  }

  // ----- what a message makes the actor report

  /** Exactly what handling a message reports. */
  lemma {:induction false} ReportsExactly(a: Actor, m: Message, r: Report)
    ensures |Handle(a, m).reports| <= 1
    ensures r in Handle(a, m).reports <==>
            match r
            case Changed(stage) => m.ImagePulled? && a.stage.Pulling? && stage.Starting?
            case Started(info) => m.ContainerReady? && a.stage.Starting? && a.info == Some(info)
            case Stopped(Exited(code)) => m == ContainerTerminated(code) && !a.stage.Terminated?
            case Stopped(Aborted) =>
              m.SignalContainer? && !m.signal.OtherSignal? && (a.stage.Assigned? || a.stage.Pulling?)
            case Stopped(Errored) => (m.DockerErr? || m.ChildFailed?) && !a.stage.Terminated?
  {
  }

  /** Exactly what it orders. */
  lemma {:induction false} OrdersExactly(a: Actor, m: Message, order: Order)
    ensures |Handle(a, m).orders| <= 1
    ensures order in Handle(a, m).orders <==>
            match order
            case RunContainer => m.ImagePulled? && a.stage.Pulling? && a.spec.Some?
            case Kill(id, signal) => m == SignalContainer(signal) && a.stage.Running? && a.info == Some(id)
            case SpawnChecker => m.ContainerStarted? && m.checkable && a.spec.Some? && a.spec.value.hasChecks
  {
  }

  /** Exactly what it sends to itself: its stop, a signal that came before the container runs, and the
      readiness of a container without checks. */
  lemma {:induction false} MailExactly(a: Actor, m: Message, mail: Message)
    ensures |Handle(a, m).mail| <= 1
    ensures mail in Handle(a, m).mail <==>
            || (mail == Stop(false) &&
                (m.ContainerTerminated? ||
                 (m.SignalContainer? && !m.signal.OtherSignal? && (a.stage.Assigned? || a.stage.Pulling?))))
            || (mail == m && m.SignalContainer? && a.stage.Starting?)
            || (mail == ContainerReady && m.ContainerStarted? && a.spec.Some? && !a.spec.value.hasChecks)
  {
  }

  /** Exactly when it fails, and how. */
  lemma {:induction false} EndExactly(a: Actor, m: Message)
    ensures Handle(a, m).end ==
            if m.DockerErr? || m.ChildFailed? then Error
            else if m.ContainerStarted? && a.spec.Some? && a.spec.value.hasChecks && !m.checkable then Error
            else if m.ImagePulled? && !a.stage.Pulling? then Panic(IllegalTransition)
            else if (m.ImagePulled? || m.ContainerStarted? || m.ContainerLog?) && a.spec.None? then Panic(NilSpec)
            else if (m.ContainerReady? || (m.SignalContainer? && a.stage.Running?)) && a.info.None? then Panic(NilInfo)
            else if m.ContainerReady? && !a.stage.Starting? then Panic(IllegalTransition)
            else GoOn
  {
  }

  /** The legal transitions: one stage on, or to the end from anywhere else. */
  lemma {:induction false} TransitionsExactly(a: Stage, b: Stage)
    ensures ValidTransition(a, b) <==> Rank(b) == Rank(a) + 1 || (b.Terminated? && !a.Terminated?)
  {
  }

  // ----- a stop is told once, and stands

  lemma {:induction false} ReportsGrow(s: Sys, step: Step)
    requires Enabled(s, step)
    ensures s.reports <= Apply(s, step).reports
  {
  }

  lemma {:induction false} StopStands(s: Sys, step: Step)
    requires Inv(s) && Enabled(s, step) && StopReported(s.reports)
    ensures Apply(s, step).reports == s.reports
  {
    ReportsGrow(s, step);
    StepInv(s, step);
    NothingAfterStop(s.reports, Apply(s, step).reports, Apply(s, step).actor.stage);
  }

  lemma {:induction false} NothingAfterStop(before: seq<Report>, after: seq<Report>, stage: Stage)
    requires before <= after && StopReported(before) && ReportsOk(after, stage)
    ensures after == before
  {
    var i, last := |before| - 1, |after| - 1;
    assert after[i] == before[i];
    assert i < last ==> Rank(StageOf(after[i])) < Rank(StageOf(after[last]));
  }

  lemma {:induction false} StopStandsInRun(spec: Spec, steps: seq<Step>, k: nat, s: Sys)
    requires Run(spec, steps).Some? && k <= |steps|
    requires Run(spec, steps[..k]) == Some(s) && StopReported(s.reports)
    ensures Run(spec, steps).value.reports == s.reports
  {
    if k == |steps| {
      assert steps[..k] == steps;
    } else {
      var n := |steps| - 1;
      assert steps[..n][..k] == steps[..k];
      StopStandsInRun(spec, steps[..n], k, s);
      RunInv(spec, steps[..n]);
      StopStands(Run(spec, steps[..n]).value, steps[n]);
    }
  }

  /** An exit that is read before anything else has ended the container is what the parent is told, with
      its own code, and it stays the last word, whatever follows. */
  lemma {:induction false} ExitIsTold(spec: Spec, steps: seq<Step>, k: nat, s: Sys, code: int)
    requires Run(spec, steps).Some? && k < |steps| && steps[k].Deliver?
    requires Run(spec, steps[..k]) == Some(s) && Run(spec, steps[..k + 1]).Some?
    requires s.inbox != [] && s.inbox[0] == ContainerTerminated(code) && !s.actor.stage.Terminated?
    ensures Run(spec, steps).value.reports == s.reports + [Stopped(Exited(code))]
  {
    assert steps[..k + 1][..k] == steps[..k];
    StopStandsInRun(spec, steps, k + 1, Run(spec, steps[..k + 1]).value);
  }

  /** An aborted container was never announced beyond pulling; and an actor that terminated without
      being closed at once exited or was aborted. */
  predicate EndingsOk(s: Sys) {
    && (Stopped(Aborted) in s.reports ==> s.reports == [Changed(Pulling), Stopped(Aborted)])
    && (s.actor.stage.Pulling? ==> s.reports == [Changed(Pulling)])
    && (s.closed.None? ==> Stopped(Errored) !in s.reports)
    && (s.closed.Some? && s.closed.value.message == Stop(false) ==> Stopped(Errored) !in s.reports)
  }

  lemma {:induction false} EndingsStep(s: Sys, step: Step)
    requires Inv(s) && EndingsOk(s) && Enabled(s, step)
    ensures EndingsOk(Apply(s, step))
  {
    if step.Deliver? {
      ReportsExactly(s.actor, s.inbox[0], Stopped(Aborted));
      ReportsExactly(s.actor, s.inbox[0], Stopped(Errored));
      DeliverEndings(s);
    }
  }

  lemma {:induction false} DeliverEndings(s: Sys)
    requires Inv(s) && EndingsOk(s) && Enabled(s, Deliver)
    ensures EndingsOk(Delivered(s))
  {
  }

  lemma {:induction false} RunEndings(spec: Spec, steps: seq<Step>)
    requires Run(spec, steps).Some?
    ensures EndingsOk(Run(spec, steps).value)
  {
    if steps != [] {
      var n := |steps| - 1;
      RunEndings(spec, steps[..n]);
      RunInv(spec, steps[..n]);
      EndingsStep(Run(spec, steps[..n]).value, steps[n]);
    }
  }

  /** An actor closed by its own stop has told its parent that the container exited, with the code of
      an exit of this run, or that it was aborted before it was set up, by a signal of this run. */
  lemma {:induction false} OwnStopTold(spec: Spec, steps: seq<Step>)
    requires Run(spec, steps).Some? && Run(spec, steps).value.closed.Some?
    requires Run(spec, steps).value.closed.value.message == Stop(false)
    ensures var reports := Run(spec, steps).value.reports;
            && reports != []
            && match reports[|reports| - 1]
               case Stopped(Exited(code)) => Exit(code) in steps
               case Stopped(Aborted) => Interrupted(steps) && reports == [Changed(Pulling), Stopped(Aborted)]
               case _ => false
  {
    var s := Run(spec, steps).value;
    RunInv(spec, steps);
    RunExplained(spec, steps);
    RunEndings(spec, steps);
    OwnStopMeansTerminated(s);
    LastWord(steps, s);
  }

  lemma {:induction false} LastWord(steps: seq<Step>, s: Sys)
    requires WellSourced(steps, s) && EndingsOk(s) && StopReported(s.reports) && Stopped(Errored) !in s.reports
    ensures match s.reports[|s.reports| - 1]
            case Stopped(Exited(code)) => Exit(code) in steps
            case Stopped(Aborted) => Interrupted(steps) && s.reports == [Changed(Pulling), Stopped(Aborted)]
            case _ => false
  {
    var last := s.reports[|s.reports| - 1];
    assert Explained(steps, last) && last in s.reports;
  }

  lemma {:induction false} OwnStopMeansTerminated(s: Sys)
    requires Inv(s) && s.closed.Some? && s.closed.value.message == Stop(false)
    ensures StopReported(s.reports)
  {
  }
}
