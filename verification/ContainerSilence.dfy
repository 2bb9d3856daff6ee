/** Which endings the parent is never told about. */
module ContainerSilence {
  import opened Wrappers
  import opened ContainerActor
  import opened ContainerRuns

  /** Messages of the container's own process. */
  predicate FromContainer(m: Message) {
    m.ContainerLog? || m.ContainerStarted?
  }

  /** Nothing is logged or started after the container's exit has been announced, and an actor that
      has terminated either never ran a container or has read its exit. */
  predicate ExitIsLast(s: Sys) {
    && (forall i, k :: 0 <= i < k < |s.inbox| && s.inbox[i].ContainerTerminated? ==> !FromContainer(s.inbox[k]))
    && (forall i :: 0 <= i < |s.inbox| && s.inbox[i].ContainerTerminated? ==> s.runner.RunOver?)
    && (s.actor.stage.Terminated? && !s.runner.NotRun? ==>
          s.runner.RunOver? && forall i :: 0 <= i < |s.inbox| ==> !FromContainer(s.inbox[i]))
  }

  /** Closed for one of the two reasons that leave the parent uninformed. */
  predicate Untold(c: Closing) {
    c == Closing(ContainerLog, Panic(NilSpec)) || (c.message.ContainerStarted? && c.end == Error)
  }

  predicate ExitInv(s: Sys) {
    if s.closed.Some? then Untold(s.closed.value) ==> !s.actor.stage.Terminated? else ExitIsLast(s)
  }

  /** A post adds at most one message, and none of the container's own once it has exited. */
  lemma {:induction false} PostAdds(s: Sys, step: Step)
    requires Inv(s) && Enabled(s, step) && !step.Deliver? && s.closed.None?
    ensures var s' := Apply(s, step);
            && s'.actor == s.actor && s'.closed.None? && s.inbox <= s'.inbox && |s'.inbox| <= |s.inbox| + 1
            && (s.runner.RunOver? ==> s'.runner.RunOver?) && (s'.runner.NotRun? <==> s.runner.NotRun?)
            && (|s'.inbox| > |s.inbox| ==>
                  && (FromContainer(s'.inbox[|s.inbox|]) ==> !s.runner.RunOver?)
                  && (s'.inbox[|s.inbox|].ContainerTerminated? ==> s'.runner.RunOver?))
  {
  }

  lemma {:induction false} PostExit(s: Sys, step: Step)
    requires Inv(s) && ExitInv(s) && Enabled(s, step) && !step.Deliver? && s.closed.None?
    ensures ExitInv(Apply(s, step))
  {
    PostAdds(s, step);
  }

  /** Handling a message starts a container only from the pulling stage. */
  lemma {:induction false} DeliverRunner(s: Sys)
    requires Inv(s) && Enabled(s, Deliver) && Delivered(s).closed.None?
    ensures var s' := Delivered(s);
            && (s'.runner == s.runner || (s.runner.NotRun? && !s'.actor.stage.Terminated?))
            && (s'.actor.stage.Terminated? && !s.actor.stage.Terminated? ==>
                  s.inbox[0].ContainerTerminated? || s.runner.NotRun?)
            && (|s'.inbox| == |s.inbox| ==> !s'.inbox[|s.inbox| - 1].ContainerTerminated?)
  {
    HandleMail(s.actor, s.inbox[0]);
    HeadCounts(s);
  }

  lemma {:induction false} DeliverExit(s: Sys)
    requires Inv(s) && ExitInv(s) && Enabled(s, Deliver) && Delivered(s).closed.None?
    ensures ExitInv(Delivered(s))
  {
    DeliverMail(s);
    DeliverRunner(s);
  }

  /** A log line or a start that closes the actor finds it not yet terminated. */
  lemma {:induction false} DeliverUntold(s: Sys)
    requires Inv(s) && ExitInv(s) && Enabled(s, Deliver) && Delivered(s).closed.Some?
    ensures ExitInv(Delivered(s))
  {
    HeadCounts(s);
  }

  lemma {:induction false} RunExit(spec: Spec, steps: seq<Step>)
    requires Run(spec, steps).Some?
    ensures ExitInv(Run(spec, steps).value)
  {
    if steps != [] {
      var n := |steps| - 1;
      RunExit(spec, steps[..n]);
      RunInv(spec, steps[..n]);
      var s := Run(spec, steps[..n]).value;
      if steps[n].Deliver? {
        if Delivered(s).closed.None? { DeliverExit(s); }
        if Delivered(s).closed.Some? { DeliverUntold(s); }
      } else if s.closed.None? {
        PostExit(s, steps[n]);
      }
    }
  }

  lemma {:induction false} StopReportedIffTerminated(s: Sys)
    requires Inv(s)
    ensures StopReported(s.reports) <==> s.actor.stage.Terminated?
  {
  }

  /** Exactly which endings the parent is not told about: of the actors that it did not stop itself,
      those brought down by a log line after the spec was evicted, and those whose readiness checker
      could not be set up. */
  lemma {:induction false} SilentExactly(spec: Spec, steps: seq<Step>)
    requires Run(spec, steps).Some? && Run(spec, steps).value.closed.Some?
    requires Run(spec, steps).value.closed.value.message != Stop(true)
    ensures !StopReported(Run(spec, steps).value.reports) <==> Untold(Run(spec, steps).value.closed.value)
  {
    RunInv(spec, steps);
    RunExit(spec, steps);
    StopReportedIffTerminated(Run(spec, steps).value);
    ClosedHow(Run(spec, steps).value);
  }

  /** The run ends with a checker that cannot be set up, and the last report is the start of the
      container's set-up. */
  ghost predicate DiesOfChecker(spec: Spec, steps: seq<Step>) {
    && Run(spec, steps).Some? && Run(spec, steps).value.closed.Some?
    && Run(spec, steps).value.closed.value.message.ContainerStarted?
    && Run(spec, steps).value.closed.value.end == Error
    && !StopReported(Run(spec, steps).value.reports)
  }

  lemma {:induction false} CheckerFails(spec: Spec)
    requires spec.hasChecks
    ensures DiesOfChecker(spec, [PullOk, Deliver, Launch(7, false), Deliver])
  {
    var s0 := Init(spec);
    OneMore(spec, [], s0, PullOk);
    var a, p1 := Apply(s0, PullOk), [] + [PullOk];
    OneMore(spec, p1, a, Deliver);
    var b, p2 := Apply(a, Deliver), p1 + [Deliver];
    assert b.actor.stage == Starting && b.runner == Creating && b.inbox == [];
    OneMore(spec, p2, b, Launch(7, false));
    var c, p3 := Apply(b, Launch(7, false)), p2 + [Launch(7, false)];
    assert c.inbox == [ContainerStarted(7, false)] && c.actor.spec == Some(spec);
    OneMore(spec, p3, c, Deliver);
    assert p3 + [Deliver] == [PullOk, Deliver, Launch(7, false), Deliver];
  }

  /** A container can be lost that way exactly when it has readiness checks. */
  lemma {:induction false} CheckerCanKill(spec: Spec)
    ensures (exists steps :: DiesOfChecker(spec, steps)) <==> spec.hasChecks
  {
    forall steps | DiesOfChecker(spec, steps) ensures spec.hasChecks {
      RunInv(spec, steps);
      ClosedHow(Run(spec, steps).value);
    }
    if spec.hasChecks { CheckerFails(spec); }
  }

  /** A log line that brings the actor down reports no stop: the parent learns of the end only from the
      actor library's notice that a child failed, which it ignores. */
  lemma {:induction false} LogDeathUntold(spec: Spec, steps: seq<Step>)
    requires DiesOfLog(spec, steps)
    ensures !StopReported(Run(spec, steps).value.reports)
  {
    SilentExactly(spec, steps);
  }
}
