/** After a container has terminated.  The stop is queued, so whatever was in the mailbox before it
    is still handled; what that leads to is decided when the container terminates, whatever
    happens afterwards. */
module ContainerFate {
  import opened Wrappers
  import opened ContainerActor
  import opened ContainerRuns

  /** An open actor that has terminated has its stop message queued. */
  predicate StopQueued(s: Sys) {
    s.closed.None? && s.actor.stage.Terminated? ==> Stop(false) in s.inbox
  }

  lemma {:induction false} StopQueuedStep(s: Sys, step: Step)
    requires StopQueued(s) && Enabled(s, step)
    ensures StopQueued(Apply(s, step))
  {
    if step.Deliver? {
      DeliverStopQueued(s);
    }
  }

  lemma {:induction false} DeliverStopQueued(s: Sys)
    requires StopQueued(s) && Enabled(s, Deliver)
    ensures StopQueued(Delivered(s))
  {
    var q, m := s.inbox, s.inbox[0];
    HandleMail(s.actor, m);
    if Delivered(s).closed.None? {
      assert q == [m] + q[1..];
      assert Delivered(s).inbox == q[1..] + Handle(s.actor, m).mail;
    }
  }

  lemma {:induction false} RunStopQueued(spec: Spec, steps: seq<Step>)
    requires Run(spec, steps).Some?
    ensures StopQueued(Run(spec, steps).value)
  {
    if steps != [] {
      RunStopQueued(spec, steps[..|steps| - 1]);
      StopQueuedStep(Run(spec, steps[..|steps| - 1]).value, steps[|steps| - 1]);
    }
  }

  /** How the actor closes if it handles just the messages `q`. */
  function Fate(a: Actor, q: seq<Message>): Option<Closing>
    decreases |q|
  {
    if q == [] then None
    else if q[0].Stop? then Some(Closing(q[0], GoOn))
    else if !Handle(a, q[0]).end.GoOn? then Some(Closing(q[0], Handle(a, q[0]).end))
    else Fate(Handle(a, q[0]).actor, q[1..])
  }

  /** Later messages cannot change it. */
  lemma {:induction false} FateKept(a: Actor, q: seq<Message>, more: seq<Message>)
    requires Fate(a, q).Some?
    ensures Fate(a, q + more) == Fate(a, q)
    decreases |q|
  {
    assert (q + more)[0] == q[0];
    if !q[0].Stop? && Handle(a, q[0]).end.GoOn? {
      FateKept(Handle(a, q[0]).actor, q[1..], more);
      assert (q + more)[1..] == q[1..] + more;
    }
  }

  lemma {:induction false} StopSettles(a: Actor, q: seq<Message>)
    requires Stop(false) in q
    ensures Fate(a, q).Some?
    decreases |q|
  {
    if q[0] != Stop(false) {
      assert q == [q[0]] + q[1..];
      StopSettles(Handle(a, q[0]).actor, q[1..]);
    }
  }

  /** Closed by `c`, or bound to be. */
  predicate Bound(s: Sys, c: Closing) {
    if s.closed.Some? then s.closed.value == c
    else s.actor.stage.Terminated? && Fate(s.actor, s.inbox) == Some(c)
  }

  lemma {:induction false} BoundStep(s: Sys, step: Step, c: Closing)
    requires Bound(s, c) && Enabled(s, step)
    ensures Bound(Apply(s, step), c)
  {
    if s.closed.None? {
      if step.Deliver? {
        BoundDeliver(s, c);
      } else {
        var s' := Apply(s, step);
        assert s'.actor == s.actor && s'.closed.None?;
        var more := s'.inbox[|s.inbox|..];
        assert s'.inbox == s.inbox + more;
        FateKept(s.actor, s.inbox, more);
      }
    }
  }

  lemma {:induction false} BoundDeliver(s: Sys, c: Closing)
    requires Bound(s, c) && s.closed.None? && Enabled(s, Deliver)
    ensures Bound(Delivered(s), c)
  {
    var m := s.inbox[0];
    var o := Handle(s.actor, m);
    if !m.Stop? && o.end.GoOn? {
      HandleMail(s.actor, m);
      FateKept(o.actor, s.inbox[1..], o.mail);
    }
  }

  lemma {:induction false} PrefixRuns(spec: Spec, steps: seq<Step>, k: nat)
    requires Run(spec, steps).Some? && k <= |steps|
    ensures Run(spec, steps[..k]).Some?
  {
    if k < |steps| {
      var n := |steps| - 1;
      PrefixRuns(spec, steps[..n], k);
      assert steps[..n][..k] == steps[..k];
    } else {
      assert steps[..k] == steps;
    }
  }

  lemma {:induction false} BoundRun(spec: Spec, steps: seq<Step>, k: nat, c: Closing)
    requires Run(spec, steps).Some? && k <= |steps|
    requires Run(spec, steps[..k]).Some? && Bound(Run(spec, steps[..k]).value, c)
    ensures Bound(Run(spec, steps).value, c)
  {
    if k == |steps| {
      assert steps[..k] == steps;
    } else {
      var n := |steps| - 1;
      PrefixRuns(spec, steps, n);
      assert steps[..n][..k] == steps[..k];
      BoundRun(spec, steps[..n], k, c);
      BoundStep(Run(spec, steps[..n]).value, steps[n], c);
    }
  }

  /** The end of a terminated actor is decided at the step that terminated it: no continuation of
      the run closes it in any other way. */
  lemma {:induction false} FateDecided(spec: Spec, steps: seq<Step>, k: nat)
    requires Run(spec, steps).Some? && k <= |steps| && Run(spec, steps[..k]).Some?
    requires var s := Run(spec, steps[..k]).value; s.closed.None? && s.actor.stage.Terminated?
    ensures var s := Run(spec, steps[..k]).value;
            Fate(s.actor, s.inbox).Some? && Bound(Run(spec, steps).value, Fate(s.actor, s.inbox).value)
  {
    var s := Run(spec, steps[..k]).value;
    RunStopQueued(spec, steps[..k]);
    StopSettles(s.actor, s.inbox);
    BoundRun(spec, steps, k, Fate(s.actor, s.inbox).value);
  }

  // ----- which queues end in a panic

  /** Messages that ask for the next stage. */
  predicate Announces(m: Message) {
    m.ImagePulled? || m.ContainerReady?
  }

  /** The spec has been evicted by the time message `i` is handled. */
  predicate SpecGone(a: Actor, q: seq<Message>, i: nat)
    requires i <= |q|
  {
    a.spec.None? || (a.spec.value.hasChecks && exists k :: 0 <= k < i && q[k].ContainerStarted?)
  }

  /** Message `i` closes a terminated actor without asking for a stage. */
  predicate Closes(a: Actor, q: seq<Message>, i: nat)
    requires i < |q|
  {
    match q[i]
    case Stop(_) | DockerErr | ChildFailed => true
    case ContainerLog => SpecGone(a, q, i)
    case ContainerStarted(_, checkable) => SpecGone(a, q, i) || (a.spec.value.hasChecks && !checkable)
    case _ => false
  }

  /** Some message asks for a stage before anything closes the actor. */
  predicate AnnouncedFirst(a: Actor, q: seq<Message>) {
    exists i :: 0 <= i < |q| && Announces(q[i]) && forall j :: 0 <= j < i ==> !Closes(a, q, j)
  }

  lemma {:induction false} FirstStep(a: Actor, q: seq<Message>)
    requires q != [] && !Announces(q[0]) && !Closes(a, q, 0) && a.stage.Terminated?
    ensures !q[0].Stop? && Handle(a, q[0]).end.GoOn? && Handle(a, q[0]).actor.stage.Terminated?
    ensures forall i :: 0 <= i < |q| - 1 ==> (Closes(Handle(a, q[0]).actor, q[1..], i) <==> Closes(a, q, i + 1))
    ensures a.info.Some? ==> Handle(a, q[0]).actor.info.Some?
  {
    var a' := Handle(a, q[0]).actor;
    forall i | 0 <= i <= |q| - 1 ensures SpecGone(a', q[1..], i) <==> SpecGone(a, q, i + 1) {
      GoneShift(a, q, i);
    }
    if q[0].ContainerStarted? && a.spec.value.hasChecks { assert a'.spec.None?; }
  }

  lemma {:induction false} GoneShift(a: Actor, q: seq<Message>, i: nat)
    requires q != [] && i <= |q| - 1 && !Announces(q[0]) && !Closes(a, q, 0) && a.stage.Terminated?
    ensures SpecGone(Handle(a, q[0]).actor, q[1..], i) <==> SpecGone(a, q, i + 1)
  {
    var a' := Handle(a, q[0]).actor;
    if a.spec.Some? && a.spec.value.hasChecks {
      if q[0].ContainerStarted? {
        assert a'.spec.None?;
      } else {
        assert a'.spec == a.spec;
        if k :| 0 <= k < i + 1 && q[k].ContainerStarted? { assert q[1..][k - 1].ContainerStarted?; }
        if k :| 0 <= k < i && q[1..][k].ContainerStarted? { assert q[k + 1].ContainerStarted?; }
      }
    }
  }

  lemma {:induction false} AnnouncedShift(a: Actor, q: seq<Message>)
    requires q != [] && !Announces(q[0]) && !Closes(a, q, 0) && a.stage.Terminated?
    ensures AnnouncedFirst(a, q) <==> AnnouncedFirst(Handle(a, q[0]).actor, q[1..])
  {
    FirstStep(a, q);
    var a', t := Handle(a, q[0]).actor, q[1..];
    if i :| 0 <= i < |q| && Announces(q[i]) && forall j :: 0 <= j < i ==> !Closes(a, q, j) {
      assert Announces(t[i - 1]);
      forall j | 0 <= j < i - 1 ensures !Closes(a', t, j) { assert !Closes(a, q, j + 1); }
    }
    if i :| 0 <= i < |t| && Announces(t[i]) && forall j :: 0 <= j < i ==> !Closes(a', t, j) {
      assert Announces(q[i + 1]);
      forall j | 0 <= j < i + 1 ensures !Closes(a, q, j) {
        if j > 0 { assert !Closes(a', t, j - 1); }
      }
    }
  }

  lemma {:induction false} PanicExactly(a: Actor, q: seq<Message>)
    requires a.stage.Terminated? && (ContainerReady in q ==> a.info.Some?)
    ensures (Fate(a, q).Some? && Fate(a, q).value.end == Panic(IllegalTransition)) <==> AnnouncedFirst(a, q)
    decreases |q|
  {
    if q != [] {
      if Announces(q[0]) {
        assert q[0] in q;
      } else if !Closes(a, q, 0) {
        FirstStep(a, q);
        AnnouncedShift(a, q);
        PanicExactly(Handle(a, q[0]).actor, q[1..]);
      }
    }
  }

  lemma {:induction false} ReadyMeansInfo(s: Sys)
    requires Inv(s) && s.closed.None? && ContainerReady in s.inbox
    ensures s.actor.info.Some?
  {
    var i :| 0 <= i < |s.inbox| && s.inbox[i] == ContainerReady;
    Counted(s.inbox, i);
  }

  /** Exactly when a terminated container's actor goes down with an illegal transition: a pulled
      image or a readiness was announced before anything that closes the actor.  The condition
      looks only at the mailbox at the moment of termination. */
  lemma {:induction false} LatePanicExactly(spec: Spec, steps: seq<Step>, k: nat)
    requires Run(spec, steps).Some? && k <= |steps| && Run(spec, steps[..k]).Some?
    requires var s := Run(spec, steps[..k]).value; s.closed.None? && s.actor.stage.Terminated?
    requires Run(spec, steps).value.closed.Some?
    ensures var s := Run(spec, steps[..k]).value;
            Run(spec, steps).value.closed.value.end == Panic(IllegalTransition) <==> AnnouncedFirst(s.actor, s.inbox)
  {
    var s := Run(spec, steps[..k]).value;
    FateDecided(spec, steps, k);
    RunInv(spec, steps[..k]);
    if ContainerReady in s.inbox { ReadyMeansInfo(s); }
    PanicExactly(s.actor, s.inbox);
  }
}
