/** The order of events over whole runs of a node: what emergency recovery shows to the outside,
    in which order, and what never happens once it has begun. */
module RecoveryOrder {
  import opened Control
  import opened ReadyMove
  import opened Device
  import opened ControlNode

  // ----- the protocol, as an automaton over events -----

  datatype Phase = Normal | Entered | Driving | Closing | Closed | Violated

  /** Before the error: everything but recovery announcements.  After it: no second error, no
      leader observation, no effector step.  The slow move begins once, and only from then on is
      its progress announced; one shutdown announcement, followed at once by the stop of the
      topic; then no announcement of the recovery any more. */
  function After(p: Phase, e: Event): Phase {
    match p
    case Normal =>
      (match e
       case ErrorDetected => Entered
       case SlowMoveBegan => Violated
       case RecoveryInProgress => Violated
       case ShutdownAfterError => Violated
       case ReadyMoveInProgress(s) => if s.Emergency? then Violated else Normal
       case _ => Normal)
    case Entered =>
      (match e
       case ErrorDetected => Violated
       case LeaderObservation => Violated
       case EffectorStepped => Violated
       case SlowMoveBegan => Driving
       case RecoveryInProgress => Violated
       case ShutdownAfterError => Violated
       case ReadyMoveInProgress(_) => Violated
       case _ => Entered)
    case Driving =>
      (match e
       case ErrorDetected => Violated
       case LeaderObservation => Violated
       case EffectorStepped => Violated
       case SlowMoveBegan => Violated
       case ShutdownAfterError => Closing
       case ReadyMoveInProgress(s) => if s.Emergency? then Driving else Violated
       case _ => Driving)
    case Closing => if e.TopicStop? then Closed else Violated
    case Closed =>
      (match e
       case ErrorDetected => Violated
       case LeaderObservation => Violated
       case EffectorStepped => Violated
       case SlowMoveBegan => Violated
       case RecoveryInProgress => Violated
       case ShutdownAfterError => Violated
       case ReadyMoveInProgress(_) => Violated
       case _ => Closed)
    case Violated => Violated
  }

  function PhaseOf(events: seq<Event>): Phase {
    if |events| == 0 then Normal else After(PhaseOf(events[..|events| - 1]), events[|events| - 1])
  }

  /** The phase of the events so far agrees with the state of the recovery. */
  predicate InOrder(a: Arm) {
    var phase := PhaseOf(a.topic.events);
    match a.recovery.state
    case NoRecovery => phase == Normal
    case Requested => phase == Entered && !a.recovery.closed
    case MovingSlow => phase == Driving && !a.recovery.closed
    case TimedOut => phase == Driving && !a.recovery.closed
    case Completed => phase == Closed && a.recovery.closed && !a.topic.running
  }

  lemma Emitted(t: Topic, e: Event)
    ensures PhaseOf(Emit(t, e).events) == After(PhaseOf(t.events), e)
  {
    assert Emit(t, e).events[..|t.events|] == t.events;
  }

  // ----- the phases of a step keep the order -----

  lemma MarkCompletedInOrder(a: Arm)
    requires InOrder(a) && !a.recovery.state.Requested?
    ensures InOrder(MarkCompleted(a))
    ensures InRecovery(a) ==> MarkCompleted(a).recovery.state.Completed?
  {
    hide PhaseOf;
    Emitted(a.topic, ShutdownAfterError);
    Emitted(Emit(a.topic, ShutdownAfterError), TopicStop);
  }

  lemma EnterRecoveryInOrder(a: Arm, cause: ReturnCode, joint: int)
    requires InOrder(a)
    ensures InOrder(EnterRecovery(a, cause, joint)) && InRecovery(EnterRecovery(a, cause, joint))
  {
    hide PhaseOf;
    Emitted(a.topic.(listening := false), ErrorDetected);
  }

  /** What concerns the outside is untouched. */
  predicate SameOutside(a: Arm, b: Arm) { b.topic == a.topic && b.recovery == a.recovery }

  lemma BeginCommandInOrder(a: Arm, inp: StepInput)
    requires InOrder(a)
    ensures InOrder(BeginCommand(a, inp)) && BeginCommand(a, inp).recovery == a.recovery
  {
    hide PhaseOf, AllRebased, AllCleared, AllAimed;
    Emitted(a.topic, MoveBegan(a.command.requestId));
  }

  lemma BeginRecoveryInOrder(a: Arm, inp: StepInput)
    requires InOrder(a)
    ensures InOrder(BeginRecovery(a, inp)) && !BeginRecovery(a, inp).recovery.state.Requested?
    ensures InRecovery(BeginRecovery(a, inp)) <==> InRecovery(a)
  {
    hide PhaseOf, AllCleared, AllRebased;
    Emitted(a.topic, SlowMoveBegan);
  }

  lemma PrepareInOrder(a: Arm, inp: StepInput)
    requires InOrder(a)
    ensures InOrder(PreparePhase(a, inp)) && !PreparePhase(a, inp).recovery.state.Requested?
    ensures InRecovery(PreparePhase(a, inp)) <==> InRecovery(a)
  {
    hide PhaseOf, BeginCommand, BeginRecovery;
    BeginCommandInOrder(a, inp);
    BeginRecoveryInOrder(BeginCommand(a, inp), inp);
  }

  lemma TimeoutInOrder(c: Config, a: Arm, inp: StepInput)
    requires InOrder(a) && !a.recovery.state.Requested?
    ensures InOrder(CheckTimeout(c, a, inp).arm) && !CheckTimeout(c, a, inp).arm.recovery.state.Requested?
    ensures InRecovery(CheckTimeout(c, a, inp).arm) <==> InRecovery(a)
  {
    hide PhaseOf, MarkCompleted;
    if Stale(c, a, inp) {
      MarkCompletedInOrder(a.(recovery := a.recovery.(state := TimedOut)));
    }
  }

  lemma ProgressInOrder(a: Arm, inp: StepInput)
    requires InOrder(a)
    ensures InOrder(ProgressPhase(a, inp)) && ProgressPhase(a, inp).recovery == a.recovery
  {
    hide PhaseOf;
    Emitted(a.topic.(recoveryPublished := inp.progressMs), RecoveryInProgress);
    var b := PublishRecoveryProgress(a, inp);
    assert InOrder(b);
    if ReadyMoveSource(b).Some? {
      Emitted(b.topic.(readyPublished := inp.progressMs), ReadyMoveInProgress(ReadyMoveSource(b).value));
    }
  }

  lemma MoveJointsInOrder(c: Config, a: Arm, inp: StepInput)
    requires InOrder(a) && !a.recovery.state.Requested?
    ensures var b := MoveJoints(c, a, inp).arm; InOrder(b) && (InRecovery(b) <==> InRecovery(a))
  {
    hide PhaseOf, MarkCompleted, Tick, TickCode, CommandedUpTo, Attempts, LoopCode, Poses;
    if !a.move.progress.done {
      var b := a.(move := Tick(a.move, StepLength(c, a), inp.codes));
      assert InOrder(b);
      MarkCompletedInOrder(b);
    }
  }

  lemma AwaitOutside(a: Arm)
    ensures SameOutside(a, AwaitEffector(a))
  {
  }

  lemma MoveInOrder(c: Config, a: Arm, inp: StepInput)
    requires InOrder(a) && !a.recovery.state.Requested?
    ensures var b := MoveToReadyPosition(c, a, inp).arm; InOrder(b) && (InRecovery(b) <==> InRecovery(a))
  {
    hide PhaseOf, MoveJoints, AwaitEffector;
    MoveJointsInOrder(c, a, inp);
    AwaitOutside(MoveJoints(c, a, inp).arm);
  }

  lemma ArrivedInOrder(c: Config, a: Arm, inp: StepInput)
    requires InOrder(a)
    ensures InOrder(Arrived(c, a, inp)) && Arrived(c, a, inp).recovery == a.recovery
  {
    hide PhaseOf, AllRebased, AllCleared, AllAimed;
    Emitted(a.topic, MoveEnded(a.command.requestId));
  }

  lemma RestoreInOrder(c: Config, a: Arm, inp: StepInput)
    requires InOrder(a)
    ensures var b := Restore(c, a, inp); InOrder(b) && b.recovery == a.recovery
  {
    hide PhaseOf, AllRebased, AllCleared, AllAimed;
    Emitted(a.topic, TopicStop);
  }

  lemma OperateOutside(c: Config, a: Arm, inp: StepInput)
    ensures SameOutside(a, OperateAsFollower(c, a, inp).arm)
  {
    hide Slew.Tick, CommandedUpTo;
  }

  lemma ActInOrder(c: Config, a: Arm, inp: StepInput)
    requires InOrder(a) && !a.recovery.state.Requested?
    ensures var b := ActPhase(c, a, inp).arm; InOrder(b) && (InRecovery(b) <==> InRecovery(a))
  {
    hide PhaseOf, MoveToReadyPosition, Arrived, Restore, OperateAsFollower;
    if !a.ready {
      MoveInOrder(c, a, inp);
      ArrivedInOrder(c, MoveToReadyPosition(c, a, inp).arm, inp);
    } else {
      RestoreInOrder(c, a, inp);
      OperateOutside(c, Restore(c, a, inp), inp);
    }
  }

  lemma DispatchInOrder(c: Config, a: Arm, msg: Message, inp: StepInput)
    requires InOrder(a)
    ensures var b := Dispatch(c, a, msg, inp); InOrder(b) && b.recovery == a.recovery
  {
    hide PhaseOf, AllRebased, AllCleared, RequestEffectorMove;
    match msg
    case Stop => Emitted(a.topic, TopicStop);
    case MoveToReady(id) => RequestInOrder(a, id);
    case MoveToReadyAndPause(id) => RequestInOrder(SetListening(c, a, false), id);
    case MoveToReadyAndStop(id) => RequestInOrder(SetListening(c, a, false), id);
    case _ =>
  }

  lemma RequestInOrder(a: Arm, id: int)
    requires InOrder(a)
    ensures InOrder(RequestMove(a, id)) && RequestMove(a, id).recovery == a.recovery
  {
    hide PhaseOf;
    Emitted(a.topic.(readyPublished := 0), RequestReceived(id));
  }

  lemma {:induction false} DispatchAllInOrder(c: Config, a: Arm, inp: StepInput, n: nat)
    requires InOrder(a) && n <= |inp.messages|
    ensures var b := DispatchAll(c, a, inp, n); InOrder(b) && b.recovery == a.recovery
  {
    hide InOrder, Dispatch;
    if n > 0 {
      DispatchAllInOrder(c, a, inp, n - 1);
      DispatchInOrder(c, DispatchAll(c, a, inp, n - 1), inp.messages[n - 1], inp);
    }
  }

  lemma TargetsInOrder(c: Config, a: Arm, inp: StepInput)
    requires InOrder(a)
    ensures InOrder(TakeTargets(c, a, inp)) && TakeTargets(c, a, inp).recovery == a.recovery
  {
    hide PhaseOf, AllAimed;
  }

  lemma WatchdogInOrder(c: Config, a: Arm, inp: StepInput)
    requires InOrder(a)
    ensures var b := ClientWatchdog(c, a, inp); InOrder(b) && b.recovery == a.recovery
  {
    hide PhaseOf, AllRebased, AllCleared, AllAimed;
  }

  lemma PublishInOrder(c: Config, a: Arm, inp: StepInput)
    requires InOrder(a)
    ensures var b := PublishObservation(c, a, inp).arm; InOrder(b) && b.recovery == a.recovery
  {
    hide PhaseOf;
    Emitted(a.topic, if c.role.Leader? then LeaderObservation else FollowerObservation);
  }

  lemma FinishInOrder(c: Config, a: Arm, inp: StepInput)
    requires InOrder(a)
    ensures var b := FinishPhase(c, a, inp).arm; InOrder(b) && (InRecovery(b) <==> InRecovery(a))
  {
    hide PhaseOf, PublishObservation, DispatchAll, TakeTargets, ClientWatchdog;
    PublishInOrder(c, a, inp);
    var r := PublishObservation(c, a, inp);
    DispatchAllInOrder(c, r.arm, inp, |inp.messages|);
    TargetsInOrder(c, DispatchAll(c, r.arm, inp, |inp.messages|), inp);
    WatchdogInOrder(c, TakeTargets(c, DispatchAll(c, r.arm, inp, |inp.messages|), inp), inp);
  }

  /** A step keeps the order, and neither starts nor ends the fact of being in recovery. */
  lemma StepInOrder(c: Config, a: Arm, inp: StepInput)
    requires InOrder(a)
    ensures var b := Step(c, a, inp).arm; InOrder(b) && (InRecovery(b) <==> InRecovery(a))
  {
    hide PhaseOf, PreparePhase, CheckTimeout, ProgressPhase, ActPhase, FinishPhase, Read;
    var r0 := ReadPhase(a, inp);
    assert InOrder(r0.arm);
    PrepareInOrder(r0.arm, inp);
    var a1 := PreparePhase(r0.arm, inp);
    TimeoutInOrder(c, a1, inp);
    var r1 := CheckTimeout(c, a1, inp);
    ProgressInOrder(r1.arm, inp);
    ActInOrder(c, ProgressPhase(r1.arm, inp), inp);
    FinishInOrder(c, ActPhase(c, ProgressPhase(r1.arm, inp), inp).arm, inp);
  }

  lemma ArmStepInOrder(c: Config, a: Arm, inp: StepInput)
    requires InOrder(a)
    ensures var b := ArmStep(c, a, inp).arm; InOrder(b) && (InRecovery(b) <==> InRecovery(a))
  {
    hide PhaseOf, Step, EffectorStep;
    StepInOrder(c, a, inp);
    Emitted(Step(c, a, inp).arm.topic, EffectorStepped);
  }

  lemma TurnInOrder(c: Config, n: Node, inp: NodeInput)
    requires InOrder(n.arm)
    ensures InOrder(Turn(c, n, inp).arm)
    ensures InRecovery(n.arm) ==> InRecovery(Turn(c, n, inp).arm)
  {
    hide PhaseOf, ArmStep, EnterRecovery;
    ArmStepInOrder(c, n.arm, inp.step);
    var r := ArmStep(c, n.arm, inp.step);
    EnterRecoveryInOrder(r.arm, r.code, inp.joint);
    var arm := Supervised(c, n.arm, inp);
    Emitted(arm.topic, ReadyNow(AnnouncedId(arm)));
  }

  // ----- whole runs -----

  /** In every run from a healthy start, whatever the hardware and the clients do, the events
      follow the protocol, and their phase tells the state of the recovery. */
  lemma {:induction false} EventsInOrder(c: Config, n: Node, ins: nat -> NodeInput, k: nat)
    requires n.arm.recovery.state.NoRecovery? && n.arm.topic.events == []
    ensures InOrder(Run(c, n, ins, k).arm)
  {
    hide InOrder, Turn;
    if k == 0 {
      NothingHappened(n.arm);
    } else {
      EventsInOrder(c, n, ins, k - 1);
      TurnInOrder(c, Run(c, n, ins, k - 1), ins(k - 1));
    }
  }

  lemma NothingHappened(a: Arm)
    requires a.recovery.state.NoRecovery? && a.topic.events == []
    ensures InOrder(a)
  {
  }

  /** A recovery, once begun, is never left. */
  lemma {:induction false} NeverBackToNormal(c: Config, n: Node, ins: nat -> NodeInput, j: nat, k: nat)
    requires n.arm.recovery.state.NoRecovery? && n.arm.topic.events == []
    requires j <= k && InRecovery(Run(c, n, ins, j).arm)
    ensures InRecovery(Run(c, n, ins, k).arm)
    decreases k
  {
    hide InOrder, Turn;
    if j < k {
      NeverBackToNormal(c, n, ins, j, k - 1);
      EventsInOrder(c, n, ins, k - 1);
      TurnInOrder(c, Run(c, n, ins, k - 1), ins(k - 1));
    }
  }

  // ----- what the automaton means -----

  lemma {:induction false} NotViolatedBefore(events: seq<Event>, k: nat)
    requires k <= |events| && !PhaseOf(events).Violated?
    ensures !PhaseOf(events[..k]).Violated?
    decreases |events|
  {
    if k == |events| {
      assert events[..k] == events;
    } else {
      var front := events[..|events| - 1];
      NotViolatedBefore(front, k);
      assert front[..k] == events[..k];
    }
  }

  lemma OneEvent(events: seq<Event>, k: nat)
    requires k < |events|
    ensures PhaseOf(events[..k + 1]) == After(PhaseOf(events[..k]), events[k])
  {
    assert events[..k + 1][..k] == events[..k];
  }

  /** After the error at `i` the phase at `k` is no longer normal; after the shutdown at `i` it
      is closed, but for the moment at which the topic is about to stop. */
  lemma {:induction false} PhaseAfter(events: seq<Event>, i: nat, k: nat)
    requires i < k <= |events| && !PhaseOf(events).Violated?
    ensures events[i].ErrorDetected? ==> !PhaseOf(events[..k]).Normal?
    ensures events[i].ShutdownAfterError? ==>
      PhaseOf(events[..k]) == if k == i + 1 then Closing else Closed
    decreases k
  {
    NotViolatedBefore(events, k);
    OneEvent(events, k - 1);
    NotViolatedBefore(events, k - 1);
    if i < k - 1 {
      PhaseAfter(events, i, k - 1);
    }
  }

  /** Before the first error the phase is normal. */
  lemma {:induction false} NormalUntilError(events: seq<Event>, k: nat)
    requires k <= |events| && !PhaseOf(events).Violated?
    requires forall i :: 0 <= i < k ==> !events[i].ErrorDetected?
    ensures PhaseOf(events[..k]).Normal?
    decreases k
  {
    if k > 0 {
      NormalUntilError(events, k - 1);
      OneEvent(events, k - 1);
      NotViolatedBefore(events, k);
    }
  }

  /** Recovery is announced at most once, and from then on no leader observation is published
      and the effector is not stepped. */
  lemma SilentAfterError(events: seq<Event>, i: nat, k: nat)
    requires i < k < |events| && !PhaseOf(events).Violated? && events[i].ErrorDetected?
    ensures !events[k].ErrorDetected? && !events[k].LeaderObservation? && !events[k].EffectorStepped?
  {
    PhaseAfter(events, i, k);
    OneEvent(events, k);
    NotViolatedBefore(events, k);
    NotViolatedBefore(events, k + 1);
  }

  /** The shutdown follows an error, is followed at once by the stop of the topic, and is the
      last word about the recovery. */
  lemma ShutdownIsLast(events: seq<Event>, i: nat)
    requires i < |events| && !PhaseOf(events).Violated? && events[i].ShutdownAfterError?
    ensures exists e :: 0 <= e < i && events[e].ErrorDetected?
    ensures i + 1 < |events| ==> events[i + 1].TopicStop?
    ensures forall k :: i < k < |events| ==>
      !events[k].ShutdownAfterError? && !events[k].RecoveryInProgress? && !events[k].ErrorDetected?
  {
    if forall e :: 0 <= e < i ==> !events[e].ErrorDetected? {
      NormalUntilError(events, i);
      OneEvent(events, i);
      NotViolatedBefore(events, i + 1);
    }
    forall k | i < k < |events|
      ensures !events[k].ShutdownAfterError? && !events[k].RecoveryInProgress? && !events[k].ErrorDetected?
      ensures k == i + 1 ==> events[k].TopicStop?
    {
      PhaseAfter(events, i, k);
      OneEvent(events, k);
      NotViolatedBefore(events, k + 1);
    }
  }

  /** In the driving phase the slow move has begun and nothing has been shut down. */
  lemma {:induction false} DrivingMeans(events: seq<Event>)
    requires PhaseOf(events).Driving?
    ensures exists b :: 0 <= b < |events| && events[b].SlowMoveBegan?
    ensures forall k :: 0 <= k < |events| ==> !events[k].ShutdownAfterError?
  {
    var last := |events| - 1;
    var front := events[..last];
    if PhaseOf(front).Driving? {
      DrivingMeans(front);
      var b :| 0 <= b < |front| && front[b].SlowMoveBegan?;
      assert events[b].SlowMoveBegan?;
    } else {
      NotShutDown(front);
    }
    forall k | 0 <= k < |events| ensures !events[k].ShutdownAfterError? {
      assert k < last ==> events[k] == front[k];
    }
  }

  lemma {:induction false} NotShutDown(events: seq<Event>)
    requires PhaseOf(events).Normal? || PhaseOf(events).Entered?
    ensures forall k :: 0 <= k < |events| ==> !events[k].ShutdownAfterError?
  {
    if |events| > 0 {
      var front := events[..|events| - 1];
      NotShutDown(front);
      forall k | 0 <= k < |events| ensures !events[k].ShutdownAfterError? {
        assert k < |front| ==> events[k] == front[k];
      }
    }
  }

  /** Progress of a recovery is announced only between the beginning of its slow move and the
      shutdown. */
  lemma ProgressOnlyDuringSlowMove(events: seq<Event>, i: nat)
    requires i < |events| && !PhaseOf(events).Violated? && events[i].RecoveryInProgress?
    ensures exists b :: 0 <= b < i && events[b].SlowMoveBegan?
    ensures forall k :: 0 <= k < i ==> !events[k].ShutdownAfterError?
  {
    OneEvent(events, i);
    NotViolatedBefore(events, i + 1);
    DrivingMeans(events[..i]);
    var b :| 0 <= b < i && events[..i][b].SlowMoveBegan?;
    assert events[b].SlowMoveBegan?;
    forall k | 0 <= k < i ensures !events[k].ShutdownAfterError? {
      assert events[k] == events[..i][k];
    }
  }

  // ----- the same of every run -----

  function EventsOf(c: Config, n: Node, ins: nat -> NodeInput, k: nat): seq<Event> {
    Run(c, n, ins, k).arm.topic.events
  }

  predicate Healthy(n: Node) { n.arm.recovery.state.NoRecovery? && n.arm.topic.events == [] }

  lemma NeverViolated(c: Config, n: Node, ins: nat -> NodeInput, k: nat)
    requires Healthy(n)
    ensures !PhaseOf(EventsOf(c, n, ins, k)).Violated?
  {
    hide Run;
    EventsInOrder(c, n, ins, k);
  }

  /** In every run, from the error on there is no second error, no leader observation and no
      effector step. */
  lemma RunIsSilentAfterError(c: Config, n: Node, ins: nat -> NodeInput, k: nat, i: nat, j: nat)
    requires Healthy(n) && i < j < |EventsOf(c, n, ins, k)| && EventsOf(c, n, ins, k)[i].ErrorDetected?
    ensures var e := EventsOf(c, n, ins, k)[j]; !e.ErrorDetected? && !e.LeaderObservation? && !e.EffectorStepped?
  {
    hide EventsOf, PhaseOf;
    NeverViolated(c, n, ins, k);
    SilentAfterError(EventsOf(c, n, ins, k), i, j);
  }

  /** In every run, the shutdown follows an error, is followed at once by the stop of the topic,
      and ends what is said about the recovery. */
  lemma RunEndsWithShutdown(c: Config, n: Node, ins: nat -> NodeInput, k: nat, i: nat)
    requires Healthy(n) && i < |EventsOf(c, n, ins, k)| && EventsOf(c, n, ins, k)[i].ShutdownAfterError?
    ensures var e := EventsOf(c, n, ins, k);
      && (exists j :: 0 <= j < i && e[j].ErrorDetected?)
      && (i + 1 < |e| ==> e[i + 1].TopicStop?)
      && (forall j :: i < j < |e| ==> !e[j].ShutdownAfterError? && !e[j].RecoveryInProgress? && !e[j].ErrorDetected?)
  {
    hide EventsOf, PhaseOf;
    NeverViolated(c, n, ins, k);
    ShutdownIsLast(EventsOf(c, n, ins, k), i);
  }

  /** In every run, progress is announced only while the slow move is under way. */
  lemma RunReportsProgressOnlyDuringSlowMove(c: Config, n: Node, ins: nat -> NodeInput, k: nat, i: nat)
    requires Healthy(n) && i < |EventsOf(c, n, ins, k)| && EventsOf(c, n, ins, k)[i].RecoveryInProgress?
    ensures var e := EventsOf(c, n, ins, k);
      && (exists b :: 0 <= b < i && e[b].SlowMoveBegan?)
      && (forall j :: 0 <= j < i ==> !e[j].ShutdownAfterError?)
  {
    hide EventsOf, PhaseOf;
    NeverViolated(c, n, ins, k);
    ProgressOnlyDuringSlowMove(EventsOf(c, n, ins, k), i);
  }
}
