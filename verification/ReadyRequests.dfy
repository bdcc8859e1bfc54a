/** What an announced readiness stands for, on the side of the node: a READY that carries a
    request id is preceded by the reception of that request, by its taking up and by the end of
    its move, in this order, over every run. */
module ReadyRequests {
  import opened Wrappers
  import opened Control
  import opened ReadyMove
  import opened Device
  import opened ControlNode
  import Slew

  /** How far request `r` has got. */
  datatype Stage = Unseen | Received | Begun | Ended | Wrong

  function Later(s: Stage, r: int, e: Event): Stage {
    match e
    case RequestReceived(id) => if id == r && s.Unseen? then Received else s
    case MoveBegan(id) => if id != r || s.Begun? || s.Ended? then s else if s.Received? then Begun else Wrong
    case MoveEnded(id) => if id != r || s.Ended? then s else if s.Begun? then Ended else Wrong
    case ReadyNow(id) => if id == r && !s.Ended? then Wrong else s
    case _ => s
  }

  function StageOf(r: int, events: seq<Event>): Stage {
    if |events| == 0 then Unseen else Later(StageOf(r, events[..|events| - 1]), r, events[|events| - 1])
  }

  /** The command of the arm agrees with the stage of its request. */
  predicate Honest(r: int, a: Arm) {
    var s := StageOf(r, a.topic.events);
    && !s.Wrong?
    && (a.command.requestId == r && a.command.state.Pending? ==> !s.Unseen?)
    && (a.command.requestId == r && a.command.state.Moving? ==> s.Begun? || s.Ended?)
    && (a.command.completedId == r ==> s.Ended?)
  }

  /** A phase keeps this, and only adds events; the request appears in them for the first time
      only if it is among the messages, `asked`. */
  predicate Keeps(r: int, asked: bool, a: Arm, b: Arm) {
    && Honest(r, b) && a.topic.events <= b.topic.events
    && (asked || (StageOf(r, a.topic.events).Unseen? ==> StageOf(r, b.topic.events).Unseen?))
  }

  predicate Mentions(msg: Message, r: int) {
    || (msg.MoveToReady? && msg.id == r)
    || (msg.MoveToReadyAndPause? && msg.pauseId == r)
    || (msg.MoveToReadyAndStop? && msg.stopId == r)
  }

  predicate Asks(inp: StepInput, r: int) {
    exists i :: 0 <= i < |inp.messages| && Mentions(inp.messages[i], r)
  }

  lemma Emitted(r: int, t: Topic, e: Event)
    ensures StageOf(r, Emit(t, e).events) == Later(StageOf(r, t.events), r, e)
    ensures t.events <= Emit(t, e).events
  {
    assert Emit(t, e).events[..|t.events|] == t.events;
  }

  /** Events that are not about requests. */
  predicate Unrelated(e: Event) {
    !e.RequestReceived? && !e.MoveBegan? && !e.MoveEnded? && !e.ReadyNow?
  }

  lemma EmitUnrelated(r: int, asked: bool, a: Arm, b: Arm, e: Event)
    requires r > 0 && Honest(r, a) && Unrelated(e)
    requires b.command == a.command && b.topic.events == Emit(a.topic, e).events
    ensures Keeps(r, asked, a, b)
  {
    hide StageOf;
    Emitted(r, a.topic, e);
  }

  lemma SilentKeeps(r: int, asked: bool, a: Arm, b: Arm)
    requires Honest(r, a) && b.command == a.command && b.topic.events == a.topic.events
    ensures Keeps(r, asked, a, b)
  {
  }

  // ----- the phases of a turn -----

  lemma BeginCommandKeeps(r: int, asked: bool, a: Arm, inp: StepInput)
    requires r > 0 && Honest(r, a)
    ensures Keeps(r, asked, a, BeginCommand(a, inp))
  {
    hide StageOf, AllCleared, AllRebased;
    Emitted(r, a.topic, MoveBegan(a.command.requestId));
  }

  lemma BeginRecoveryKeeps(r: int, asked: bool, a: Arm, inp: StepInput)
    requires r > 0 && Honest(r, a)
    ensures Keeps(r, asked, a, BeginRecovery(a, inp))
  {
    hide StageOf, AllRebased, AllCleared;
    Emitted(r, a.topic, SlowMoveBegan);
  }

  lemma MarkCompletedKeeps(r: int, asked: bool, a: Arm)
    requires r > 0 && Honest(r, a)
    ensures Keeps(r, asked, a, MarkCompleted(a))
  {
    hide StageOf;
    Emitted(r, a.topic, ShutdownAfterError);
    Emitted(r, Emit(a.topic, ShutdownAfterError), TopicStop);
  }

  lemma TimeoutKeeps(r: int, asked: bool, c: Config, a: Arm, inp: StepInput)
    requires r > 0 && Honest(r, a)
    ensures Keeps(r, asked, a, CheckTimeout(c, a, inp).arm)
  {
    hide StageOf, MarkCompleted;
    var b := a.(recovery := a.recovery.(state := TimedOut));
    MarkCompletedKeeps(r, asked, b);
  }

  lemma ProgressKeeps(r: int, asked: bool, a: Arm, inp: StepInput)
    requires r > 0 && Honest(r, a)
    ensures Keeps(r, asked, a, ProgressPhase(a, inp))
  {
    hide StageOf, Honest;
    var b := PublishRecoveryProgress(a, inp);
    if b.topic == a.topic {
      SilentKeeps(r, asked, a, b);
    } else {
      EmitUnrelated(r, asked, a, b, RecoveryInProgress);
    }
    var d := PublishReadyProgress(b, inp);
    if d.topic == b.topic {
      SilentKeeps(r, asked, b, d);
    } else {
      EmitUnrelated(r, asked, b, d, ReadyMoveInProgress(ReadyMoveSource(b).value));
    }
  }

  lemma MoveJointsKeeps(r: int, asked: bool, c: Config, a: Arm, inp: StepInput)
    requires r > 0 && Honest(r, a)
    ensures Keeps(r, asked, a, MoveJoints(c, a, inp).arm)
  {
    hide StageOf, Tick, TickCode, MarkCompleted, Attempts, LoopCode;
    MarkCompletedKeeps(r, asked, a.(move := Tick(a.move, StepLength(c, a), inp.codes)));
  }

  lemma MoveKeeps(r: int, asked: bool, c: Config, a: Arm, inp: StepInput)
    requires r > 0 && Honest(r, a)
    ensures Keeps(r, asked, a, MoveToReadyPosition(c, a, inp).arm)
  {
    hide StageOf, MoveJoints, AllRebased;
    MoveJointsKeeps(r, asked, c, a, inp);
  }

  lemma ArrivedKeeps(r: int, asked: bool, c: Config, a: Arm, inp: StepInput)
    requires r > 0 && Honest(r, a)
    ensures Keeps(r, asked, a, Arrived(c, a, inp))
  {
    hide StageOf, AllCleared, AllRebased;
    Emitted(r, a.topic, MoveEnded(a.command.requestId));
  }

  lemma RestoreKeeps(r: int, asked: bool, c: Config, a: Arm, inp: StepInput)
    requires r > 0 && Honest(r, a)
    ensures Keeps(r, asked, a, Restore(c, a, inp))
  {
    hide StageOf, AllCleared, AllRebased;
    Emitted(r, a.topic, TopicStop);
  }

  lemma OperateKeeps(r: int, asked: bool, c: Config, a: Arm, inp: StepInput)
    requires Honest(r, a)
    ensures Keeps(r, asked, a, OperateAsFollower(c, a, inp).arm)
  {
    hide StageOf, AllCleared, AllRebased, Slew.Tick, CommandedUpTo, Attempts, LoopCode;
  }

  lemma ActKeeps(r: int, asked: bool, c: Config, a: Arm, inp: StepInput)
    requires r > 0 && Honest(r, a)
    ensures Keeps(r, asked, a, ActPhase(c, a, inp).arm)
  {
    hide Honest, MoveToReadyPosition, Arrived, Restore, OperateAsFollower;
    if !a.ready {
      MoveKeeps(r, asked, c, a, inp);
      ArrivedKeeps(r, asked, c, MoveToReadyPosition(c, a, inp).arm, inp);
    } else {
      RestoreKeeps(r, asked, c, a, inp);
      OperateKeeps(r, asked, c, Restore(c, a, inp), inp);
    }
  }

  lemma RequestKeeps(r: int, asked: bool, a: Arm, id: int)
    requires r > 0 && Honest(r, a) && (asked || id != r)
    ensures Keeps(r, asked, a, RequestMove(a, id)) && Keeps(r, asked, a, RequestMoveAndStop(a, id))
  {
    hide StageOf, RequestEffectorMove;
    Emitted(r, a.topic.(readyPublished := 0), RequestReceived(id));
  }

  lemma HoldKeeps(r: int, asked: bool, a: Arm, inp: StepInput)
    requires Honest(r, a)
    ensures Keeps(r, asked, a, HoldNow(a, inp))
  {
    hide StageOf, AllCleared, AllRebased;
  }

  lemma ListeningKeeps(r: int, asked: bool, c: Config, a: Arm, listening: bool)
    requires Honest(r, a)
    ensures Keeps(r, asked, a, SetListening(c, a, listening))
  {
    hide StageOf;
  }

  lemma DispatchKeeps(r: int, asked: bool, c: Config, a: Arm, msg: Message, inp: StepInput)
    requires r > 0 && Honest(r, a) && (asked || !Mentions(msg, r))
    ensures Keeps(r, asked, a, Dispatch(c, a, msg, inp))
  {
    hide Honest, StageOf, RequestMove, RequestMoveAndStop, HoldNow, SetListening;
    SilentKeeps(r, asked, a, a);
    match msg
    case Stop => EmitUnrelated(r, asked, a, a.(topic := StopTopic(a.topic)), TopicStop);
    case MoveToReady(id) => RequestKeeps(r, asked, a, id);
    case MoveToReadyAndPause(id) =>
      ListeningKeeps(r, asked, c, a, false);
      RequestKeeps(r, asked, SetListening(c, a, false), id);
    case MoveToReadyAndStop(id) =>
      ListeningKeeps(r, asked, c, a, false);
      RequestKeeps(r, asked, SetListening(c, a, false), id);
    case Hold => HoldKeeps(r, asked, a, inp);
    case GravityFloat(_) => SilentKeeps(r, asked, a, Dispatch(c, a, msg, inp));
    case PauseListening => ListeningKeeps(r, asked, c, a, false);
    case ResumeListening => ListeningKeeps(r, asked, c, a, true);
    case OtherMessage(_) =>
  }

  lemma {:induction false} DispatchAllKeeps(r: int, asked: bool, c: Config, a: Arm, inp: StepInput, n: nat)
    requires r > 0 && Honest(r, a) && n <= |inp.messages| && (asked || !Asks(inp, r))
    ensures Keeps(r, asked, a, DispatchAll(c, a, inp, n))
  {
    hide Honest, Dispatch;
    if n == 0 {
      SilentKeeps(r, asked, a, a);
    } else {
      DispatchAllKeeps(r, asked, c, a, inp, n - 1);
      DispatchKeeps(r, asked, c, DispatchAll(c, a, inp, n - 1), inp.messages[n - 1], inp);
    }
  }

  lemma PublishKeeps(r: int, asked: bool, c: Config, a: Arm, inp: StepInput)
    requires r > 0 && Honest(r, a)
    ensures Keeps(r, asked, a, PublishObservation(c, a, inp).arm)
  {
    hide StageOf;
    Emitted(r, a.topic, if c.role.Leader? then LeaderObservation else FollowerObservation);
  }

  lemma WatchdogKeeps(r: int, asked: bool, c: Config, a: Arm, inp: StepInput)
    requires Honest(r, a)
    ensures Keeps(r, asked, a, ClientWatchdog(c, a, inp))
  {
    hide Honest, HoldNow, SetListening;
    SilentKeeps(r, asked, a, a);
    ListeningKeeps(r, asked, c, a, false);
    HoldKeeps(r, asked, SetListening(c, a, false), inp);
  }

  lemma FinishKeeps(r: int, asked: bool, c: Config, a: Arm, inp: StepInput)
    requires r > 0 && Honest(r, a) && (asked || !Asks(inp, r))
    ensures Keeps(r, asked, a, FinishPhase(c, a, inp).arm)
  {
    hide Honest, PublishObservation, DispatchAll, ClientWatchdog;
    SilentKeeps(r, asked, a, a);
    PublishKeeps(r, asked, c, a, inp);
    var b := PublishObservation(c, a, inp).arm;
    DispatchAllKeeps(r, asked, c, b, inp, |inp.messages|);
    var d := DispatchAll(c, b, inp, |inp.messages|);
    SilentKeeps(r, asked, d, TakeTargets(c, d, inp));
    WatchdogKeeps(r, asked, c, TakeTargets(c, d, inp), inp);
    var e := ClientWatchdog(c, TakeTargets(c, d, inp), inp);
    SilentKeeps(r, asked, e, e.(recovery := e.recovery.(heartbeat := inp.endMs)));
  }

  lemma StepKeeps(r: int, asked: bool, c: Config, a: Arm, inp: StepInput)
    requires r > 0 && Honest(r, a) && (asked || !Asks(inp, r))
    ensures Keeps(r, asked, a, Step(c, a, inp).arm)
  {
    hide Honest, BeginCommand, BeginRecovery, CheckTimeout, ProgressPhase, ActPhase, FinishPhase, Read;
    var a0 := ReadPhase(a, inp).arm;
    SilentKeeps(r, asked, a, a0);
    BeginCommandKeeps(r, asked, a0, inp);
    BeginRecoveryKeeps(r, asked, BeginCommand(a0, inp), inp);
    var a1 := PreparePhase(a0, inp);
    TimeoutKeeps(r, asked, c, a1, inp);
    var a2 := CheckTimeout(c, a1, inp).arm;
    ProgressKeeps(r, asked, a2, inp);
    ActKeeps(r, asked, c, ProgressPhase(a2, inp), inp);
    FinishKeeps(r, asked, c, ActPhase(c, ProgressPhase(a2, inp), inp).arm, inp);
  }

  lemma ArmStepKeeps(r: int, asked: bool, c: Config, a: Arm, inp: StepInput)
    requires r > 0 && Honest(r, a) && (asked || !Asks(inp, r))
    ensures Keeps(r, asked, a, ArmStep(c, a, inp).arm)
  {
    hide Honest, Step, EffectorStep;
    StepKeeps(r, asked, c, a, inp);
    var b := Step(c, a, inp).arm;
    if b.effector.Some? {
      EmitUnrelated(r, asked, b, b.(effector := Some(EffectorStep(c, b.effector.value, inp.effector).effector),
                             topic := Emit(b.topic, EffectorStepped)), EffectorStepped);
    }
  }

  lemma EnterRecoveryKeeps(r: int, asked: bool, a: Arm, cause: ReturnCode, joint: int)
    requires r > 0 && Honest(r, a)
    ensures Keeps(r, asked, a, EnterRecovery(a, cause, joint))
  {
    hide Honest;
    var b := EnterRecovery(a, cause, joint);
    if b.topic == a.topic {
      SilentKeeps(r, asked, a, b);
    } else {
      EmitUnrelated(r, asked, a, b, ErrorDetected);
    }
  }

  lemma AnnounceKeeps(r: int, asked: bool, c: Config, n: Node)
    requires r > 0 && Honest(r, n.arm)
    ensures Keeps(r, asked, n.arm, Announce(c, n).arm)
  {
    hide StageOf;
    Emitted(r, n.arm.topic, ReadyNow(AnnouncedId(n.arm)));
  }

  lemma TurnKeeps(r: int, asked: bool, c: Config, n: Node, inp: NodeInput)
    requires r > 0 && Honest(r, n.arm) && (asked || !Asks(inp.step, r))
    ensures Keeps(r, asked, n.arm, Turn(c, n, inp).arm)
  {
    hide Honest, ArmStep, EnterRecovery, Announce;
    SilentKeeps(r, asked, n.arm, n.arm);
    ArmStepKeeps(r, asked, c, n.arm, inp.step);
    var s := ArmStep(c, n.arm, inp.step);
    EnterRecoveryKeeps(r, asked, s.arm, s.code, inp.joint);
    AnnounceKeeps(r, asked, c, n.(arm := Supervised(c, n.arm, inp)));
  }

  /** A request is acknowledged with success exactly if it was received, and it is refused only
      during recovery; a command that is refused leaves the arm as it was, except that a refused
      hold may have ended a gravity float. */
  lemma AcknowledgedIffReceived(c: Config, a: Arm, msg: Message, inp: StepInput, r: int)
    ensures var b := Dispatch(c, a, msg, inp); var accepted := Answer(c, a, msg, inp).Success?;
      && (Mentions(msg, r) ==>
            && (accepted <==> b.topic.events == a.topic.events + [RequestReceived(r)])
            && (accepted ==> b.command.state.Pending? && b.command.requestId == r && !b.ready)
            && (!accepted ==> InRecovery(a)))
      && (!accepted && !msg.Hold? ==> b == a)
      && (!accepted && msg.Hold? ==> b == a || (a.floating && b == ResetSlew(a, inp.holdSec).(floating := false)))
  {
  }

  // ----- what the stages mean -----

  /** The stage a request has reached shows in the events before it. */
  lemma {:induction false} StageShows(r: int, events: seq<Event>) returns (i: nat, j: nat, k: nat)
    requires !StageOf(r, events).Wrong?
    ensures !StageOf(r, events).Unseen? ==> i < |events| && events[i] == RequestReceived(r)
    ensures StageOf(r, events).Begun? || StageOf(r, events).Ended? ==> i < j < |events| && events[j] == MoveBegan(r)
    ensures StageOf(r, events).Ended? ==> j < k < |events| && events[k] == MoveEnded(r)
  {
    i, j, k := 0, 0, 0;
    if |events| > 0 {
      var last := |events| - 1;
      var before := StageOf(r, events[..last]);
      i, j, k := StageShows(r, events[..last]);
      if before.Unseen? && events[last] == RequestReceived(r) {
        i := last;
      } else if before.Received? && events[last] == MoveBegan(r) {
        j := last;
      } else if before.Begun? && events[last] == MoveEnded(r) {
        k := last;
      }
    }
  }

  lemma {:induction false} RightBefore(r: int, events: seq<Event>, m: nat)
    requires m <= |events| && !StageOf(r, events).Wrong?
    ensures !StageOf(r, events[..m]).Wrong?
    decreases |events|
  {
    if m == |events| {
      assert events[..m] == events;
    } else {
      var front := events[..|events| - 1];
      RightBefore(r, front, m);
      assert front[..m] == events[..m];
    }
  }

  /** A READY that carries an id was earned by that request. */
  lemma ReadyIsEarned(r: int, events: seq<Event>, m: nat) returns (i: nat, j: nat, k: nat)
    requires !StageOf(r, events).Wrong? && m < |events| && events[m] == ReadyNow(r)
    ensures i < j < k < m
    ensures events[i] == RequestReceived(r) && events[j] == MoveBegan(r) && events[k] == MoveEnded(r)
  {
    RightBefore(r, events, m + 1);
    assert events[..m + 1][..m] == events[..m];
    RightBefore(r, events, m);
    i, j, k := StageShows(r, events[..m]);
  }
}
