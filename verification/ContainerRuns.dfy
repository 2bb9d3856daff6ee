/** The container actor in its surroundings: every interleaving of the docker goroutines, the
    readiness checker, signals and the actor's own messages, through one FIFO mailbox.  Stopping an
    actor only posts a stop message, so messages already queued before it are still handled. */
module ContainerRuns {
  import opened Wrappers
  import opened ContainerActor

  datatype Puller = PullActive | PullOver
  datatype Runner = NotRun | Creating | Live | RunOver
  datatype Checker = NoChecker | Checking | CheckOver

  /** The message whose handling closed the actor, and how it ended. */
  datatype Closing = Closing(message: Message, end: End)

  datatype Sys = Sys(spec: Spec, actor: Actor, inbox: seq<Message>, reports: seq<Report>,
                     puller: Puller, runner: Runner, checker: Checker, kills: nat, closed: Option<Closing>)

  function Init(spec: Spec): Sys {
    Sys(spec, Actor(Pulling, Some(spec), None), [], [Changed(Pulling)], PullActive, NotRun, NoChecker, 0, None)
  }

  datatype Step =
    | Deliver
    | PullLog | PullOk | PullFail                                          // pullImage
    | CreateLog | CreateFail | Launch(info: nat, checkable: bool)          // runContainer, until the start
    | RunLog | Exit(code: int) | WaitFail                                  // runContainer, after the start
    | CheckPass | CheckerStopped | CheckerFail                             // the readiness checker
    | KillDone | KillFail                                                  // signalContainer
    | DockerFail | Signalled(signal: Signal) | ParentStop

  predicate Enabled(s: Sys, step: Step) {
    match step
    case Deliver => s.closed.None? && s.inbox != []
    case PullLog | PullOk | PullFail => s.puller.PullActive?
    case CreateLog | CreateFail | Launch(_, _) => s.runner.Creating?
    case RunLog => s.runner.Live? && !s.spec.fluent
    case Exit(_) | WaitFail => s.runner.Live?
    case CheckPass | CheckerFail => s.checker.Checking?
    case CheckerStopped => s.checker.CheckOver?
    case KillDone | KillFail => s.kills > 0
    case DockerFail | Signalled(_) | ParentStop => true
  }

  /** A closed mailbox drops what it is sent. */
  function Post(s: Sys, m: Message): Sys {
    if s.closed.Some? then s else s.(inbox := s.inbox + [m])
  }

  /** The goroutines and the checker that an order starts. */
  function Obeyed(s: Sys, order: Order): Sys {
    match order
    case RunContainer => s.(runner := Creating)
    case Kill(_, _) => s.(kills := s.kills + 1)
    case SpawnChecker => s.(checker := Checking)
  }

  function Delivered(s: Sys): Sys
    requires s.inbox != []
  {
    var m := s.inbox[0];
    if m.Stop? then s.(inbox := [], closed := Some(Closing(m, GoOn)))
    else
      var o := Handle(s.actor, m);
      var t := s.(actor := o.actor, reports := s.reports + o.reports);
      if !o.end.GoOn? then t.(inbox := [], closed := Some(Closing(m, o.end)))
      else
        var u := t.(inbox := s.inbox[1..] + o.mail);
        if o.orders == [] then u else Obeyed(u, o.orders[0])
  }

  function Apply(s: Sys, step: Step): Sys
    requires Enabled(s, step)
  {
    match step
    case Deliver => Delivered(s)
    case PullLog | CreateLog | RunLog => Post(s, ContainerLog)
    case PullOk => Post(s.(puller := PullOver), ImagePulled)
    case PullFail => Post(s.(puller := PullOver), DockerErr)
    case CreateFail => Post(s.(runner := RunOver), DockerErr)
    case Launch(info, checkable) => Post(s.(runner := Live), ContainerStarted(info, checkable))
    case Exit(code) => Post(s.(runner := RunOver), ContainerTerminated(code))
    case WaitFail => Post(s.(runner := RunOver), DockerErr)
    case CheckPass => Post(s.(checker := CheckOver), ContainerReady)
    case CheckerStopped => Post(s, ChildStopped)
    case CheckerFail => Post(s.(checker := CheckOver), ChildFailed)
    case KillDone => s.(kills := s.kills - 1)
    case KillFail => Post(s.(kills := s.kills - 1), DockerErr)
    case DockerFail => Post(s, ChildFailed)
    case Signalled(signal) => Post(s, SignalContainer(signal))
    case ParentStop => Post(s, Stop(true))
  }

  function Run(spec: Spec, steps: seq<Step>): Option<Sys> {
    if steps == [] then Some(Init(spec))
    else
      var n := |steps| - 1;
      var before := Run(spec, steps[..n]);
      if before.Some? && Enabled(before.value, steps[n]) then Some(Apply(before.value, steps[n])) else None
  }

  // ----- the invariant

  function Rank(stage: Stage): nat {
    match stage
    case Assigned => 0
    case Pulling => 1
    case Starting => 2
    case Running => 3
    case Terminated => 4
  }

  predicate StopReported(reports: seq<Report>) {
    reports != [] && reports[|reports| - 1].Stopped?
  }

  /** The reports strictly advance and end at the actor's own stage. */
  predicate ReportsOk(reports: seq<Report>, stage: Stage) {
    && reports != [] && reports[0] == Changed(Pulling)
    && StageOf(reports[|reports| - 1]) == stage
    && (stage.Terminated? ==> StopReported(reports))
    && forall i, j :: 0 <= i < j < |reports| ==> Rank(StageOf(reports[i])) < Rank(StageOf(reports[j]))
  }

  /** The messages that move the container on; each may be sent once. */
  datatype Kind = Pulled | Begun | Ready | Other

  function KindOf(m: Message): Kind {
    match m
    case ImagePulled => Pulled
    case ContainerStarted(_, _) => Begun
    case ContainerReady => Ready
    case _ => Other
  }

  function Count(q: seq<Message>, k: Kind): nat {
    multiset(seq(|q|, i requires 0 <= i < |q| => KindOf(q[i])))[k]
  }

  lemma {:induction false} CountAppend(q: seq<Message>, m: Message, k: Kind)
    ensures Count(q + [m], k) == Count(q, k) + (if KindOf(m) == k then 1 else 0)
  {
    assert seq(|q + [m]|, i requires 0 <= i < |q + [m]| => KindOf((q + [m])[i])) ==
           seq(|q|, i requires 0 <= i < |q| => KindOf(q[i])) + [KindOf(m)];
  }

  lemma {:induction false} CountTail(q: seq<Message>, k: Kind)
    requires q != []
    ensures Count(q, k) == Count(q[1..], k) + (if KindOf(q[0]) == k then 1 else 0)
  {
    var ks := seq(|q|, i requires 0 <= i < |q| => KindOf(q[i]));
    assert ks == [KindOf(q[0])] + seq(|q[1..]|, i requires 0 <= i < |q[1..]| => KindOf(q[1..][i]));
  }

  /** Pulling, launching and readiness each happen at most once, in that order. */
  predicate OnceEach(s: Sys) {
    var stage, info := s.actor.stage, s.actor.info;
    var pulled, begun, ready := Count(s.inbox, Pulled), Count(s.inbox, Begun), Count(s.inbox, Ready);
    && !stage.Assigned?
    && pulled + (if s.puller.PullActive? then 1 else 0) <= 1
    && (pulled + (if s.puller.PullActive? then 1 else 0) > 0 || stage.Pulling? ==> s.runner.NotRun?)
    && (s.runner.NotRun? ==> stage.Pulling? || stage.Terminated?)
    && (s.runner.NotRun? || s.runner.Creating? ==> begun == 0 && info.None?)
    && begun + (if info.Some? then 1 else 0) <= 1
    && ready + (if s.checker.Checking? then 1 else 0) <= 1
    && (ready + (if s.checker.Checking? then 1 else 0) > 0 ==> info.Some? && !stage.Running? && !stage.Pulling?)
    && (stage.Running? ==> info.Some?)
  }

  predicate SpecOk(s: Sys) {
    && (s.actor.spec.Some? ==> s.actor.spec.value == s.spec)
    && (s.actor.spec.None? ==> s.actor.info.Some? && s.spec.hasChecks)
  }

  /** With Fluent logging nothing is logged to the actor after the container has started. */
  predicate LogsInOrder(s: Sys) {
    s.spec.fluent ==>
      && (s.actor.info.Some? ==> forall i :: 0 <= i < |s.inbox| ==> !s.inbox[i].ContainerLog?)
      && (forall i, j :: 0 <= i < j < |s.inbox| && s.inbox[i].ContainerStarted? ==> !s.inbox[j].ContainerLog?)
  }

  predicate StopsOk(s: Sys) {
    forall i :: 0 <= i < |s.inbox| && s.inbox[i] == Stop(false) ==> s.actor.stage.Terminated?
  }

  /** The only ways the actor can end. */
  predicate EndingOk(s: Sys, c: Closing) {
    match c.end
    case GoOn => c.message.Stop? && (!c.message.fromParent ==> s.actor.stage.Terminated?)
    case Error =>
      s.actor.stage.Terminated? || (c.message.ContainerStarted? && s.spec.hasChecks && !c.message.checkable)
    case Panic(fault) =>
      || (fault == IllegalTransition && s.actor.stage.Terminated?)
      || (fault == NilSpec && c.message.ContainerLog? && s.spec.hasChecks && !s.spec.fluent)
  }

  predicate Inv(s: Sys) {
    && ReportsOk(s.reports, s.actor.stage)
    && (s.actor.stage.Running? ==> s.actor.info.Some?)
    && (if s.closed.Some? then EndingOk(s, s.closed.value)
        else OnceEach(s) && SpecOk(s) && LogsInOrder(s) && StopsOk(s))
  }

  lemma {:induction false} Reported(reports: seq<Report>, stage: Stage, r: Report)
    requires ReportsOk(reports, stage) && Rank(stage) < Rank(StageOf(r)) && r != Changed(Terminated)
    ensures ReportsOk(reports + [r], StageOf(r))
  {
    var more := reports + [r];
    forall i, j | 0 <= i < j < |more| ensures Rank(StageOf(more[i])) < Rank(StageOf(more[j])) {
      if j == |reports| && i < |reports| - 1 {
        assert Rank(StageOf(reports[i])) < Rank(StageOf(reports[|reports| - 1]));
      }
    }
  }

  /** Posting a message that moves nothing on. */
  lemma {:induction false} PostOther(s: Sys, m: Message)
    requires Inv(s) && s.closed.None? && KindOf(m) == Other && m != Stop(false)
    requires m.ContainerLog? && s.spec.fluent ==> s.actor.info.None? && Count(s.inbox, Begun) == 0
    ensures Inv(s.(inbox := s.inbox + [m]))
  {
    CountAppend(s.inbox, m, Pulled);
    CountAppend(s.inbox, m, Begun);
    CountAppend(s.inbox, m, Ready);
    if m.ContainerLog? && s.spec.fluent { NoneCounted(s.inbox); }
  }

  lemma {:induction false} NoneCounted(q: seq<Message>)
    requires Count(q, Begun) == 0
    ensures forall i :: 0 <= i < |q| ==> !q[i].ContainerStarted?
  {
    forall i | 0 <= i < |q| ensures !q[i].ContainerStarted? {
      Counted(q, i);
    }
  }

  lemma {:induction false} Counted(q: seq<Message>, i: nat)
    requires i < |q|
    ensures Count(q, KindOf(q[i])) > 0
  {
    var ks := seq(|q|, i requires 0 <= i < |q| => KindOf(q[i]));
    assert ks[i] in multiset(ks);
  }

  lemma {:induction false} PullOkInv(s: Sys)
    requires Inv(s) && Enabled(s, PullOk) && s.closed.None?
    ensures Inv(Apply(s, PullOk))
  {
    CountMove(s, ImagePulled);
  }

  lemma {:induction false} LaunchInv(s: Sys, info: nat, checkable: bool)
    requires Inv(s) && Enabled(s, Launch(info, checkable)) && s.closed.None?
    ensures Inv(Apply(s, Launch(info, checkable)))
  {
    CountMove(s, ContainerStarted(info, checkable));
  }

  lemma {:induction false} CheckPassInv(s: Sys)
    requires Inv(s) && Enabled(s, CheckPass) && s.closed.None?
    ensures Inv(Apply(s, CheckPass))
  {
    CountMove(s, ContainerReady);
  }

  lemma {:induction false} DockerStepInv(s: Sys, step: Step)
    requires Inv(s) && Enabled(s, step) && s.closed.None?
    requires step.PullLog? || step.PullFail? || step.CreateLog? || step.CreateFail? || step.RunLog? || step.Exit? || step.WaitFail?
    ensures Inv(Apply(s, step))
  {
    match step
    case PullLog | CreateLog | RunLog => PostOther(s, ContainerLog);
    case PullFail => PostOther(s.(puller := PullOver), DockerErr);
    case CreateFail => PostOther(s.(runner := RunOver), DockerErr);
    case Exit(code) => PostOther(s.(runner := RunOver), ContainerTerminated(code));
    case WaitFail => PostOther(s.(runner := RunOver), DockerErr);
  }

  lemma {:induction false} CheckerFailInv(s: Sys)
    requires Inv(s) && Enabled(s, CheckerFail) && s.closed.None?
    ensures Inv(Apply(s, CheckerFail))
  {
    PostOther(s.(checker := CheckOver), ChildFailed);
  }

  lemma {:induction false} KillStepInv(s: Sys, step: Step)
    requires Inv(s) && Enabled(s, step) && s.closed.None? && (step.KillDone? || step.KillFail?)
    ensures Inv(Apply(s, step))
  {
    if step.KillFail? { PostOther(s.(kills := s.kills - 1), DockerErr); }
  }

  /** Steps that do nothing but post a message. */
  lemma {:induction false} OtherStepInv(s: Sys, step: Step)
    requires Inv(s) && Enabled(s, step) && s.closed.None?
    requires step.CheckerStopped? || step.DockerFail? || step.Signalled? || step.ParentStop?
    ensures Inv(Apply(s, step))
  {
    var m := match step
      case CheckerStopped => ChildStopped
      case DockerFail => ChildFailed
      case Signalled(signal) => SignalContainer(signal)
      case ParentStop => Stop(true);
    assert Apply(s, step) == s.(inbox := s.inbox + [m]);
    PostOther(s, m);
  }

  lemma {:induction false} PostStepInv(s: Sys, step: Step)
    requires Inv(s) && Enabled(s, step) && !step.Deliver? && s.closed.None?
    ensures Inv(Apply(s, step))
  {
    match step
    case PullOk => PullOkInv(s);
    case Launch(info, checkable) => LaunchInv(s, info, checkable);
    case CheckPass => CheckPassInv(s);
    case PullLog | PullFail | CreateLog | CreateFail | RunLog | Exit(_) | WaitFail => DockerStepInv(s, step);
    case CheckerFail => CheckerFailInv(s);
    case KillDone | KillFail => KillStepInv(s, step);
    case CheckerStopped | DockerFail | Signalled(_) | ParentStop => OtherStepInv(s, step);
  }

  lemma {:induction false} CountMove(s: Sys, m: Message)
    ensures forall k :: Count(s.inbox + [m], k) == Count(s.inbox, k) + (if KindOf(m) == k then 1 else 0)
  {
    forall k ensures Count(s.inbox + [m], k) == Count(s.inbox, k) + (if KindOf(m) == k then 1 else 0) {
      CountAppend(s.inbox, m, k);
    }
  }

  /** Counts after the head has been handled and `mail` posted behind the rest. */
  lemma {:induction false} CountDelivered(q: seq<Message>, mail: seq<Message>, k: Kind)
    requires q != [] && |mail| <= 1
    ensures Count(q[1..] + mail, k) ==
            Count(q, k) - (if KindOf(q[0]) == k then 1 else 0) + (if mail != [] && KindOf(mail[0]) == k then 1 else 0)
  {
    CountTail(q, k);
    if mail == [] {
      assert q[1..] + mail == q[1..];
    } else {
      assert mail == [mail[0]];
      CountAppend(q[1..], mail[0], k);
    }
  }

  lemma {:induction false} HeadCounts(s: Sys)
    requires s.inbox != []
    ensures KindOf(s.inbox[0]) != Other ==> Count(s.inbox, KindOf(s.inbox[0])) > 0
  {
    CountTail(s.inbox, KindOf(s.inbox[0]));
  }

  /** A handled message is reported exactly when it moves the actor on. */
  lemma {:induction false} HandleReports(a: Actor, m: Message)
    requires a.stage.Running? ==> a.info.Some?
    ensures var o := Handle(a, m);
            && (o.actor.stage.Running? ==> o.actor.info.Some?)
            && (o.reports == [] ==> o.actor.stage == a.stage)
            && (o.reports != [] ==>
                  && |o.reports| == 1 && StageOf(o.reports[0]) == o.actor.stage
                  && Rank(a.stage) < Rank(o.actor.stage) && o.reports[0] != Changed(Terminated))
  {
  }

  lemma {:induction false} DeliverReports(s: Sys)
    requires Inv(s) && Enabled(s, Deliver)
    ensures ReportsOk(Delivered(s).reports, Delivered(s).actor.stage)
    ensures Delivered(s).actor.stage.Running? ==> Delivered(s).actor.info.Some?
  {
    var o := Handle(s.actor, s.inbox[0]);
    HandleReports(s.actor, s.inbox[0]);
    assert !s.inbox[0].Stop? ==> Delivered(s).reports == s.reports + o.reports && Delivered(s).actor == o.actor;
    if o.reports == [] {
      assert s.reports + o.reports == s.reports;
    } else {
      Reported(s.reports, s.actor.stage, o.reports[0]);
      assert o.reports == [o.reports[0]];
    }
  }

  lemma {:induction false} DeliverEnding(s: Sys)
    requires Inv(s) && Enabled(s, Deliver) && Delivered(s).closed.Some?
    ensures EndingOk(Delivered(s), Delivered(s).closed.value)
  {
    HeadCounts(s);
  }

  /** The actor sends itself a stop after its termination, a signal that came too early, or the
      readiness of a container that has no checks. */
  lemma {:induction false} HandleMail(a: Actor, m: Message)
    ensures var o := Handle(a, m);
            || o.mail == []
            || (o.mail == [Stop(false)] && o.actor.stage.Terminated?)
            || (o.mail == [m] && m.SignalContainer?)
            || (o.mail == [ContainerReady] && m.ContainerStarted?)
    ensures a.stage.Terminated? ==> Handle(a, m).actor.stage.Terminated?
  {
  }

  /** What is in the mailbox afterwards was behind the head, or is such a message. */
  lemma {:induction false} DeliverMail(s: Sys)
    requires Enabled(s, Deliver) && Delivered(s).closed.None?
    ensures var q, q' := s.inbox, Delivered(s).inbox;
            && |q| - 1 <= |q'| <= |q|
            && (forall i :: 0 <= i < |q| - 1 ==> q'[i] == q[i + 1])
            && (|q'| == |q| ==> !q'[|q| - 1].ContainerLog? && !q'[|q| - 1].ContainerStarted?)
            && (|q'| == |q| && q'[|q| - 1] == Stop(false) ==> Delivered(s).actor.stage.Terminated?)
            && (s.actor.stage.Terminated? ==> Delivered(s).actor.stage.Terminated?)
            && Delivered(s).actor == Handle(s.actor, q[0]).actor
  {
    HandleMail(s.actor, s.inbox[0]);
  }

  lemma {:induction false} DeliverStops(s: Sys)
    requires Inv(s) && Enabled(s, Deliver) && Delivered(s).closed.None?
    ensures StopsOk(Delivered(s))
  {
    DeliverMail(s);
  }

  lemma {:induction false} DeliverOrder(s: Sys)
    requires Inv(s) && Enabled(s, Deliver) && Delivered(s).closed.None?
    ensures LogsInOrder(Delivered(s))
  {
    DeliverMail(s);
    if s.spec.fluent && Delivered(s).actor.info.Some? && s.actor.info.None? {
      assert s.inbox[0].ContainerStarted?;
    }
  }

  lemma {:induction false} DeliverSpec(s: Sys)
    requires Inv(s) && Enabled(s, Deliver) && Delivered(s).closed.None?
    ensures SpecOk(Delivered(s))
  {
  }

  lemma {:induction false} CountsAfter(s: Sys, k: Kind)
    requires Enabled(s, Deliver) && Delivered(s).closed.None? && k != Other
    ensures Count(Delivered(s).inbox, k) == Count(s.inbox, k) - (if KindOf(s.inbox[0]) == k then 1 else 0)
            + (if k.Ready? && Handle(s.actor, s.inbox[0]).mail == [ContainerReady] then 1 else 0)
  {
    CountDelivered(s.inbox, Handle(s.actor, s.inbox[0]).mail, k);
    HandleMail(s.actor, s.inbox[0]);
  }

  lemma {:induction false} DeliverCounts(s: Sys)
    requires Inv(s) && Enabled(s, Deliver) && Delivered(s).closed.None?
    ensures OnceEach(Delivered(s))
  {
    CountsAfter(s, Pulled);
    CountsAfter(s, Begun);
    CountsAfter(s, Ready);
    HeadCounts(s);
  }

  lemma {:induction false} StepInv(s: Sys, step: Step)
    requires Inv(s) && Enabled(s, step)
    ensures Inv(Apply(s, step))
  {
    if step.Deliver? {
      DeliverReports(s);
      if Delivered(s).closed.Some? { DeliverEnding(s); }
      if Delivered(s).closed.None? {
        DeliverOrder(s);
        DeliverStops(s);
        DeliverSpec(s);
        DeliverCounts(s);
      }
    } else if s.closed.None? {
      PostStepInv(s, step);
    }
  }

  lemma {:induction false} RunInv(spec: Spec, steps: seq<Step>)
    requires Run(spec, steps).Some?
    ensures Inv(Run(spec, steps).value) && Run(spec, steps).value.spec == spec
  {
    if steps != [] {
      var n := |steps| - 1;
      RunInv(spec, steps[..n]);
      StepInv(Run(spec, steps[..n]).value, steps[n]);
    }
  }

  // ----- what the parent sees

  /** In every interleaving the reported stages strictly advance from pulling, so each is reported
      at most once and nothing follows a stop; and a running container's details are known. */
  lemma {:induction false} ReportsAdvance(spec: Spec, steps: seq<Step>)
    requires Run(spec, steps).Some?
    ensures var s := Run(spec, steps).value;
            && s.reports != [] && s.reports[0] == Changed(Pulling)
            && (forall i, j :: 0 <= i < j < |s.reports| ==> Rank(StageOf(s.reports[i])) < Rank(StageOf(s.reports[j])))
            && (forall i, j :: 0 <= i < |s.reports| && 0 <= j < |s.reports| && s.reports[i].Stopped? && s.reports[j].Stopped? ==> i == j)
            && (s.actor.stage.Running? ==> s.actor.info.Some?)
  {
    RunInv(spec, steps);
    var s := Run(spec, steps).value;
    forall i, j | 0 <= i < |s.reports| && 0 <= j < |s.reports| && s.reports[i].Stopped? && s.reports[j].Stopped? ensures i == j {
      assert Rank(StageOf(s.reports[i])) == Rank(StageOf(s.reports[j]));
    }
  }

  lemma {:induction false} ClosedHow(s: Sys)
    requires Inv(s) && s.closed.Some?
    ensures var c := s.closed.value;
            && (!StopReported(s.reports) ==>
                  || c == Closing(Stop(true), GoOn)
                  || (s.spec.hasChecks && c.message.ContainerStarted? && !c.message.checkable && c.end == Error)
                  || (s.spec.hasChecks && !s.spec.fluent && c == Closing(ContainerLog, Panic(NilSpec))))
            && (c.end.Panic? ==>
                  || (c.end == Panic(IllegalTransition) && StopReported(s.reports))
                  || (c == Closing(ContainerLog, Panic(NilSpec)) && s.spec.hasChecks && !s.spec.fluent))
  {
  }

  /** An actor that is closed without having reported a stop was stopped by its parent, could not
      set up its readiness checker, or was killed by a log message after evicting its spec. */
  lemma {:induction false} SilentEndings(spec: Spec, steps: seq<Step>)
    requires Run(spec, steps).Some? && Run(spec, steps).value.closed.Some?
    requires !StopReported(Run(spec, steps).value.reports)
    ensures var c := Run(spec, steps).value.closed.value;
            || c == Closing(Stop(true), GoOn)
            || (spec.hasChecks && c.message.ContainerStarted? && !c.message.checkable && c.end == Error)
            || (spec.hasChecks && !spec.fluent && c == Closing(ContainerLog, Panic(NilSpec)))
  {
    RunInv(spec, steps);
    ClosedHow(Run(spec, steps).value);
  }

  /** The actor panics for two reasons only: a message it had queued before its stop message asks
      for a transition out of the terminated stage, or a log line reaches it after the spec was
      evicted. */
  lemma {:induction false} OnlyTwoPanics(spec: Spec, steps: seq<Step>)
    requires Run(spec, steps).Some? && Run(spec, steps).value.closed.Some?
    requires Run(spec, steps).value.closed.value.end.Panic?
    ensures var s := Run(spec, steps).value;
            var c := s.closed.value;
            || (c.end == Panic(IllegalTransition) && StopReported(s.reports))
            || (c == Closing(ContainerLog, Panic(NilSpec)) && spec.hasChecks && !spec.fluent)
  {
    RunInv(spec, steps);
    ClosedHow(Run(spec, steps).value);
  }

  lemma {:induction false} OneMore(spec: Spec, steps: seq<Step>, s: Sys, step: Step)
    requires Run(spec, steps) == Some(s) && Enabled(s, step)
    ensures Run(spec, steps + [step]) == Some(Apply(s, step))
  {
    assert (steps + [step])[..|steps|] == steps;
  }

  ghost predicate DiesOfLog(spec: Spec, steps: seq<Step>) {
    && Run(spec, steps).Some?
    && Run(spec, steps).value.closed == Some(Closing(ContainerLog, Panic(NilSpec)))
  }

  const STARTED: seq<Step> := [PullOk, Deliver, Launch(7, true), Deliver]

  /** Once a container with readiness checks has started, the actor has no spec any more. */
  lemma {:induction false} StartEvictsSpec(spec: Spec)
    requires spec.hasChecks
    ensures Run(spec, STARTED).Some?
    ensures var s := Run(spec, STARTED).value;
            s.actor.spec.None? && s.inbox == [] && s.closed.None? && s.runner.Live? && s.spec == spec
  {
    var s0 := Init(spec);
    OneMore(spec, [], s0, PullOk);
    var a, p1 := Apply(s0, PullOk), [] + [PullOk];
    OneMore(spec, p1, a, Deliver);
    var b, p2 := Apply(a, Deliver), p1 + [Deliver];
    assert b.actor.stage == Starting && b.runner == Creating && b.inbox == [];
    OneMore(spec, p2, b, Launch(7, true));
    var c, p3 := Apply(b, Launch(7, true)), p2 + [Launch(7, true)];
    assert c.inbox == [ContainerStarted(7, true)];
    OneMore(spec, p3, c, Deliver);
    assert p3 + [Deliver] == STARTED;
  }

  lemma {:induction false} LogKills(spec: Spec)
    requires spec.hasChecks && !spec.fluent
    ensures DiesOfLog(spec, STARTED + [RunLog] + [Deliver])
  {
    StartEvictsSpec(spec);
    var d := Run(spec, STARTED).value;
    OneMore(spec, STARTED, d, RunLog);
    var e := Apply(d, RunLog);
    assert e.inbox == [ContainerLog];
    OneMore(spec, STARTED + [RunLog], e, Deliver);
  }

  /** A log line can kill the actor exactly when the container has readiness checks and does not log
      through Fluent. */
  lemma {:induction false} LogCanKill(spec: Spec)
    ensures (exists steps :: DiesOfLog(spec, steps)) <==> spec.hasChecks && !spec.fluent
  {
    forall steps | DiesOfLog(spec, steps) ensures spec.hasChecks && !spec.fluent {
      RunInv(spec, steps);
    }
    if spec.hasChecks && !spec.fluent { LogKills(spec); }
  }

  const KILLED: seq<Step> := [Signalled(Sigkill), PullOk, Deliver]

  lemma {:induction false} KilledState(spec: Spec)
    ensures Run(spec, KILLED).Some?
    ensures var s := Run(spec, KILLED).value;
            && s.inbox == [ImagePulled, Stop(false)] && s.actor.stage == Terminated && s.closed.None?
            && s.reports == [Changed(Pulling), Stopped(Aborted)]
  {
    var s0 := Init(spec);
    OneMore(spec, [], s0, Signalled(Sigkill));
    var a, p1 := Apply(s0, Signalled(Sigkill)), [] + [Signalled(Sigkill)];
    OneMore(spec, p1, a, PullOk);
    var b, p2 := Apply(a, PullOk), p1 + [PullOk];
    assert b.inbox == [SignalContainer(Sigkill), ImagePulled];
    OneMore(spec, p2, b, Deliver);
    assert p2 + [Deliver] == KILLED;
  }

  /** Stopping is not immediate: a kill signal handled while the pulled image is already announced
      reports the stop, and the announcement, handled next, panics. */
  lemma {:induction false} LateMessagePanics(spec: Spec)
    ensures var steps := KILLED + [Deliver];
            && Run(spec, steps).Some?
            && Run(spec, steps).value.closed == Some(Closing(ImagePulled, Panic(IllegalTransition)))
            && Run(spec, steps).value.reports == [Changed(Pulling), Stopped(Aborted)]
  {
    KilledState(spec);
    var s := Run(spec, KILLED).value;
    OneMore(spec, KILLED, s, Deliver);
    assert s.reports + [] == s.reports;
  }
}
