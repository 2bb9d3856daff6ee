/** The agent's container actor: what one message does to it, and the mailbox it shares with the
    docker goroutines, the readiness checker, the signals and its own messages to itself. */
module ContainerActor {
  import opened Wrappers

  datatype Stage = Assigned | Pulling | Starting | Running | Terminated

  predicate ValidTransition(a: Stage, b: Stage) {
    match a
    case Assigned => b.Pulling? || b.Terminated?
    case Pulling => b.Starting? || b.Terminated?
    case Starting => b.Running? || b.Terminated?
    case Running => b.Terminated?
    case Terminated => false
  }

  datatype Signal = Sigint | Sigterm | Sigkill | OtherSignal

  /** The parts of the container's specification that the control flow looks at. */
  datatype Spec = Spec(hasChecks: bool, fluent: bool)

  datatype Message =
    | ImagePulled
    | ContainerStarted(info: nat, checkable: bool)  // `checkable`: the checker can be set up for it
    | ContainerReady
    | ContainerTerminated(exitCode: int)
    | SignalContainer(signal: Signal)
    | ContainerLog
    | ChildStopped
    | ChildFailed
    | DockerErr
    | Stop(fromParent: bool)                        // the actor library's own stop message

  datatype Reason = Exited(exitCode: int) | Aborted | Errored

  /** What the parent is told. */
  datatype Report = Changed(stage: Stage) | Started(info: nat) | Stopped(reason: Reason)

  function StageOf(r: Report): Stage {
    match r
    case Changed(stage) => stage
    case Started(_) => Running
    case Stopped(_) => Terminated
  }

  /** What the actor asks of the docker actor, and whether it spawns the checker. */
  datatype Order = RunContainer | Kill(id: nat, signal: Signal) | SpawnChecker

  datatype Fault = IllegalTransition | NilSpec | NilInfo

  /** How handling a message ends: the actor goes on, returns an error, or panics. */
  datatype End = GoOn | Error | Panic(fault: Fault)

  datatype Actor = Actor(stage: Stage, spec: Option<Spec>, info: Option<nat>)

  datatype Outcome = Outcome(actor: Actor, reports: seq<Report>, mail: seq<Message>, orders: seq<Order>, end: End)

  /** containerStopped: reported once. */
  function StopReport(a: Actor, reason: Reason): seq<Report> {
    if a.stage.Terminated? then [] else [Stopped(reason)]
  }

  function Handle(a: Actor, m: Message): Outcome {
    match m
    case ImagePulled =>
      if !ValidTransition(a.stage, Starting) then Outcome(a, [], [], [], Panic(IllegalTransition))
      else
        var a' := a.(stage := Starting);
        if a.spec.None? then Outcome(a', [Changed(Starting)], [], [], Panic(NilSpec))
        else Outcome(a', [Changed(Starting)], [], [RunContainer], GoOn)
    case ContainerStarted(info, checkable) =>
      var a' := a.(info := Some(info));
      if a.spec.None? then Outcome(a', [], [], [], Panic(NilSpec))
      else if !a.spec.value.hasChecks then Outcome(a', [], [ContainerReady], [], GoOn)
      else if !checkable then Outcome(a', [], [], [], Error)
      else Outcome(a'.(spec := None), [], [], [SpawnChecker], GoOn)
    case ContainerReady =>
      if a.info.None? then Outcome(a, [], [], [], Panic(NilInfo))
      else if !ValidTransition(a.stage, Running) then Outcome(a, [], [], [], Panic(IllegalTransition))
      else Outcome(a.(stage := Running), [Started(a.info.value)], [], [], GoOn)
    case ContainerTerminated(code) =>
      Outcome(a.(stage := Terminated), StopReport(a, Exited(code)), [Stop(false)], [], GoOn)
    case SignalContainer(signal) =>
      (match a.stage
       case Assigned | Pulling =>
         if signal.OtherSignal? then Outcome(a, [], [], [], GoOn)
         else Outcome(a.(stage := Terminated), StopReport(a, Aborted), [Stop(false)], [], GoOn)
       case Starting => Outcome(a, [], [m], [], GoOn)
       case Running =>
         if a.info.None? then Outcome(a, [], [], [], Panic(NilInfo))
         else Outcome(a, [], [], [Kill(a.info.value, signal)], GoOn)
       case Terminated => Outcome(a, [], [], [], GoOn))
    case ContainerLog =>
      if a.spec.None? then Outcome(a, [], [], [], Panic(NilSpec)) else Outcome(a, [], [], [], GoOn)
    case ChildStopped => Outcome(a, [], [], [], GoOn)
    case ChildFailed => Outcome(a.(stage := Terminated), StopReport(a, Errored), [], [], Error)
    case DockerErr => Outcome(a.(stage := Terminated), StopReport(a, Errored), [], [], Error)
    case Stop(_) => Outcome(a, [], [], [], GoOn)
  }

  /** The actor with its fields updated in place, one message at a time. */
  class ContainerActorObject {
    var stage: Stage
    var spec: Option<Spec>
    var containerInfo: Option<nat>
    var reports: seq<Report>
    var mail: seq<Message>
    var orders: seq<Order>

    ghost function Value(): Actor
      reads this
    {
      Actor(stage, spec, containerInfo)
    }

    /** PreStart: the image pull begins. */
    constructor (s: Spec)
      ensures Value() == Actor(Pulling, Some(s), None)
      ensures reports == [Changed(Pulling)] && mail == [] && orders == []
    {
      stage, spec, containerInfo, reports, mail, orders := Pulling, Some(s), None, [Changed(Pulling)], [], [];
    }

    method Transition(to: Stage) returns (ok: bool)
      modifies this`stage
      ensures ok == ValidTransition(old(stage), to)
      ensures stage == if ok then to else old(stage)
    {
      ok := ValidTransition(stage, to);
      if ok { stage := to; }
    }

    method ReportStopped(reason: Reason)
      modifies this`stage, this`reports
      ensures stage == Terminated && reports == old(reports) + StopReport(old(Value()), reason)
    {
      if stage != Terminated {
        var ok := Transition(Terminated);
        reports := reports + [Stopped(reason)];
      }
    }

    method Receive(m: Message) returns (end: End)
      modifies this
      ensures var o := Handle(old(Value()), m);
              && Value() == o.actor && end == o.end
              && reports == old(reports) + o.reports && mail == old(mail) + o.mail && orders == old(orders) + o.orders
    {
      end := GoOn;
      match m {
        case ImagePulled =>
          var ok := Transition(Starting);
          if !ok { return Panic(IllegalTransition); }
          reports := reports + [Changed(Starting)];
          if spec == None { return Panic(NilSpec); }
          orders := orders + [RunContainer];
        case ContainerStarted(info, checkable) =>
          containerInfo := Some(info);
          if spec == None { return Panic(NilSpec); }
          if !spec.value.hasChecks {
            mail := mail + [ContainerReady];
            return GoOn;
          }
          if !checkable { return Error; }
          orders := orders + [SpawnChecker];
          spec := None;
        case ContainerReady =>
          if containerInfo == None { return Panic(NilInfo); }
          var ok := Transition(Running);
          if !ok { return Panic(IllegalTransition); }
          reports := reports + [Started(containerInfo.value)];
        case ContainerTerminated(code) =>
          ReportStopped(Exited(code));
          mail := mail + [Stop(false)];
        case SignalContainer(signal) =>
          match stage {
            case Assigned | Pulling =>
              if signal != OtherSignal {
                mail := mail + [Stop(false)];
                ReportStopped(Aborted);
              }
            case Starting => mail := mail + [m];
            case Running =>
              if containerInfo == None { return Panic(NilInfo); }
              orders := orders + [Kill(containerInfo.value, signal)];
            case Terminated =>
          }
        case ContainerLog =>
          if spec == None { return Panic(NilSpec); }
        case ChildStopped =>
        case ChildFailed =>
          ReportStopped(Errored);
          end := Error;
        case DockerErr =>
          ReportStopped(Errored);
          end := Error;
        case Stop(_) =>
      }
    }
  }
}
