/** What the commands of the clients come to: the last word of a batch counts, what it leads to over
    whole runs, and when the topic stops. */
module Commands {
  import opened Wrappers
  import opened Control
  import opened ReadyMove
  import opened Device
  import opened ControlNode
  import opened RecoveryOrder
  import opened JointStep
  import Slew

  // ----- a batch of messages -----

  predicate AsksMove(msg: Message) { msg.MoveToReady? || msg.MoveToReadyAndPause? || msg.MoveToReadyAndStop? }

  /** The message says something about listening to the leader. */
  predicate OnListening(msg: Message) {
    msg.MoveToReadyAndPause? || msg.MoveToReadyAndStop? || msg.PauseListening? || msg.ResumeListening?
  }

  /** Message `m` is taken up: during recovery, only a stop or a move that ends in one. */
  predicate Heeded(a: Arm, inp: StepInput, m: nat)
    requires m < |inp.messages|
  {
    !InRecovery(a) || inp.messages[m].Stop? || inp.messages[m].MoveToReadyAndStop?
  }

  predicate Asks(a: Arm, inp: StepInput, m: nat)
    requires m < |inp.messages|
  {
    Heeded(a, inp, m) && AsksMove(inp.messages[m])
  }

  predicate Speaks(a: Arm, inp: StepInput, m: nat)
    requires m < |inp.messages|
  {
    Heeded(a, inp, m) && OnListening(inp.messages[m])
  }

  predicate LastAsks(a: Arm, inp: StepInput, n: nat, m: nat)
    requires n <= |inp.messages|
  {
    m < n && Asks(a, inp, m) && forall k :: m < k < n ==> !Asks(a, inp, k)
  }

  predicate LastSpeaks(a: Arm, inp: StepInput, n: nat, m: nat)
    requires n <= |inp.messages|
  {
    m < n && Speaks(a, inp, m) && forall k :: m < k < n ==> !Speaks(a, inp, k)
  }

  predicate Stops(inp: StepInput, n: nat)
    requires n <= |inp.messages|
  {
    exists m :: 0 <= m < n && inp.messages[m].Stop?
  }

  predicate AsksStop(inp: StepInput, n: nat)
    requires n <= |inp.messages|
  {
    exists m :: 0 <= m < n && inp.messages[m].MoveToReadyAndStop?
  }

  /** The move `id` has been requested and nothing has been done about it. */
  predicate JustAsked(b: Arm, id: int) {
    && b.command.state.Pending? && b.command.requestId == id && b.command.completedId == 0 && !b.ready
    && match b.effector
       case None => true
       case Some(e) => e.command.state.Pending? && e.command.requestId == id && e.command.completedId == 0
                       && !e.move.progress.done
  }

  lemma MessageStops(c: Config, a: Arm, msg: Message, inp: StepInput)
    ensures var b := Dispatch(c, a, msg, inp);
      && b.recovery == a.recovery && (b.topic.running <==> a.topic.running && !msg.Stop?)
      && (b.command.stopAfter <==> a.command.stopAfter || msg.MoveToReadyAndStop?)
  {
    hide AllRebased, AllCleared;
  }

  lemma MessageAsks(c: Config, a: Arm, msg: Message, inp: StepInput)
    ensures var b := Dispatch(c, a, msg, inp);
      if (!InRecovery(a) || msg.Stop? || msg.MoveToReadyAndStop?) && AsksMove(msg) then JustAsked(b, IdOf(msg))
      else b.command == a.command && b.ready == a.ready && b.effector == a.effector
  {
    hide AllRebased, AllCleared;
  }

  lemma MessageSpeaks(c: Config, a: Arm, msg: Message, inp: StepInput)
    ensures var heeded := !InRecovery(a) || msg.Stop? || msg.MoveToReadyAndStop?;
      Dispatch(c, a, msg, inp).topic.listening ==
        if heeded && OnListening(msg) && c.role.Follower? then msg.ResumeListening? else a.topic.listening
  {
    hide AllRebased, AllCleared;
  }

  /** A stop, and a stop after the move, count wherever they stand in a batch. */
  lemma {:induction false} BatchStops(c: Config, a: Arm, inp: StepInput, n: nat)
    requires n <= |inp.messages|
    ensures var b := DispatchAll(c, a, inp, n);
      && b.recovery == a.recovery && (b.topic.running <==> a.topic.running && !Stops(inp, n))
      && (b.command.stopAfter <==> a.command.stopAfter || AsksStop(inp, n))
  {
    hide Dispatch;
    if n > 0 {
      BatchStops(c, a, inp, n - 1);
      MessageStops(c, DispatchAll(c, a, inp, n - 1), inp.messages[n - 1], inp);
    }
  }

  /** Of the requests the last one counts, ... */
  lemma {:induction false} LastRequestCounts(c: Config, a: Arm, inp: StepInput, n: nat, m: nat)
    requires n <= |inp.messages| && LastAsks(a, inp, n, m)
    ensures JustAsked(DispatchAll(c, a, inp, n), IdOf(inp.messages[m]))
  {
    hide Dispatch;
    BatchStops(c, a, inp, n - 1);
    MessageAsks(c, DispatchAll(c, a, inp, n - 1), inp.messages[n - 1], inp);
    if m < n - 1 {
      LastRequestCounts(c, a, inp, n - 1, m);
      assert !Asks(a, inp, n - 1);
    }
  }

  /** ... and without any, nothing is requested. */
  lemma {:induction false} NothingRequested(c: Config, a: Arm, inp: StepInput, n: nat)
    requires n <= |inp.messages| && forall m: nat :: m < n ==> !Asks(a, inp, m)
    ensures var b := DispatchAll(c, a, inp, n);
      b.command == a.command && b.ready == a.ready && b.effector == a.effector
  {
    hide Dispatch, JustAsked;
    if n > 0 {
      BatchStops(c, a, inp, n - 1);
      NothingRequested(c, a, inp, n - 1);
      MessageAsks(c, DispatchAll(c, a, inp, n - 1), inp.messages[n - 1], inp);
      assert !Asks(a, inp, n - 1);
    }
  }

  /** Of what is said about listening to the leader the last word counts, ... */
  lemma {:induction false} LastWordCounts(c: Config, a: Arm, inp: StepInput, n: nat, m: nat)
    requires n <= |inp.messages| && LastSpeaks(a, inp, n, m) && c.role.Follower?
    ensures DispatchAll(c, a, inp, n).topic.listening <==> inp.messages[m].ResumeListening?
  {
    hide Dispatch;
    BatchStops(c, a, inp, n - 1);
    MessageSpeaks(c, DispatchAll(c, a, inp, n - 1), inp.messages[n - 1], inp);
    if m < n - 1 {
      LastWordCounts(c, a, inp, n - 1, m);
      assert !Speaks(a, inp, n - 1);
    }
  }

  /** ... and without any, or at a leader arm, nothing changes. */
  lemma {:induction false} NothingSaid(c: Config, a: Arm, inp: StepInput, n: nat)
    requires n <= |inp.messages| && (c.role.Leader? || forall m: nat :: m < n ==> !Speaks(a, inp, m))
    ensures DispatchAll(c, a, inp, n).topic.listening == a.topic.listening
  {
    hide Dispatch;
    if n > 0 {
      BatchStops(c, a, inp, n - 1);
      NothingSaid(c, a, inp, n - 1);
      MessageSpeaks(c, DispatchAll(c, a, inp, n - 1), inp.messages[n - 1], inp);
      assert c.role.Follower? ==> !Speaks(a, inp, n - 1);
    }
  }

  // ----- the gravity float -----

  /** The message starts or ends the gravity float of a follower. */
  predicate OnFloating(inp: StepInput, m: nat)
    requires m < |inp.messages|
  {
    var msg := inp.messages[m];
    (msg.GravityFloat? && msg.answer.Success?) || (msg.Hold? && inp.holdMode.Success?)
  }

  lemma MessageFloats(c: Config, a: Arm, msg: Message, inp: StepInput)
    requires !InRecovery(a) && c.role.Follower?
    ensures Dispatch(c, a, msg, inp).floating ==
      if msg.GravityFloat? && msg.answer.Success? then true
      else if msg.Hold? && inp.holdMode.Success? then false
      else a.floating
  {
    hide AllRebased, AllCleared;
  }

  /** Of the messages that start or end a gravity float the last one counts, ... */
  lemma {:induction false} LastFloatCounts(c: Config, a: Arm, inp: StepInput, n: nat, m: nat)
    requires !InRecovery(a) && c.role.Follower?
    requires m < n <= |inp.messages| && OnFloating(inp, m) && forall k: nat :: m < k < n ==> !OnFloating(inp, k)
    ensures DispatchAll(c, a, inp, n).floating <==> inp.messages[m].GravityFloat?
  {
    hide Dispatch;
    BatchStops(c, a, inp, n - 1);
    MessageFloats(c, DispatchAll(c, a, inp, n - 1), inp.messages[n - 1], inp);
    if m < n - 1 {
      LastFloatCounts(c, a, inp, n - 1, m);
      assert !OnFloating(inp, n - 1);
    }
  }

  /** ... and without any, it goes on or does not. */
  lemma {:induction false} NothingFloats(c: Config, a: Arm, inp: StepInput, n: nat)
    requires !InRecovery(a) && c.role.Follower?
    requires n <= |inp.messages| && forall k: nat :: k < n ==> !OnFloating(inp, k)
    ensures DispatchAll(c, a, inp, n).floating == a.floating
  {
    hide Dispatch;
    if n > 0 {
      BatchStops(c, a, inp, n - 1);
      NothingFloats(c, a, inp, n - 1);
      MessageFloats(c, DispatchAll(c, a, inp, n - 1), inp.messages[n - 1], inp);
      assert !OnFloating(inp, n - 1);
    }
  }

  /** All joints are commanded to be, and kept, where they have been measured. */
  predicate Parked(a: Arm) {
    forall i :: 0 <= i < |a.move.joints| ==>
      var j := a.move.joints[i]; j.tele == j.pos && j.prev == j.pos && j.target == j.pos
  }

  /** A floating arm is not commanded.  It leaves the float exactly when it runs away, and then it is
      parked where it is. */
  lemma FloatAborts(c: Config, a: Arm, inp: StepInput)
    requires a.floating && inp.floating.Success?
    ensures var r := OperateAsFollower(c, a, inp);
      && r.Go? && (r.arm.floating <==> !inp.runaway)
      && (inp.runaway ==> Parked(r.arm) && r.arm.slewClock == Some(inp.slewSec))
      && |r.arm.move.joints| == |a.move.joints|
      && forall i :: 0 <= i < |a.move.joints| ==> r.arm.move.joints[i].commands == a.move.joints[i].commands
  {
  }

  /** The arm is parked, and a move is about to start. */
  predicate Restarting(b: Arm, sec: real) {
    && Parked(b) && b.slewClock == Some(sec) && !b.ready
    && !b.move.progress.done && b.move.progress.initCount == b.move.progress.reached == 0
  }

  lemma CommandUptake(a: Arm, inp: StepInput)
    ensures var b := BeginCommand(a, inp);
      && !b.command.state.Pending? && b.recovery == a.recovery && |b.move.joints| == |a.move.joints|
      && if a.command.state.Pending? then
           Restarting(b, inp.rebaseSec) && (b.floating <==> a.floating && !inp.commandMode)
         else b == a
  {
  }

  lemma RecoveryUptake(a: Arm, inp: StepInput)
    ensures var b := BeginRecovery(a, inp);
      && !b.recovery.state.Requested? && b.command == a.command && |b.move.joints| == |a.move.joints|
      && if a.recovery.state.Requested? then
           Restarting(b, inp.rebaseSec) && (b.floating <==> a.floating && !inp.recoveryMode)
         else b == a
  {
  }

  /** What waits is taken up by the next step that reads its joints: the arm is parked where it has been
      measured, its move starts over, and a float ends if position control can be entered. */
  lemma UptakeParks(a: Arm, inp: StepInput)
    requires Waits(a)
    ensures var b := Acting(a, inp);
      && Restarting(b, inp.rebaseSec) && |b.move.joints| == |a.move.joints|
      && !b.command.state.Pending? && !b.recovery.state.Requested?
      && (b.floating <==> && a.floating && !(a.command.state.Pending? && inp.commandMode)
                          && !(a.recovery.state.Requested? && inp.recoveryMode))
  {
    hide ProgressPhase;
    UptakePrepares(ReadPhase(a, inp).arm, inp);
    ProgressStill(PreparePhase(ReadPhase(a, inp).arm, inp), inp);
    ProgressKeepsFloat(PreparePhase(ReadPhase(a, inp).arm, inp), inp);
  }

  lemma UptakePrepares(a: Arm, inp: StepInput)
    requires Waits(a)
    ensures var b := PreparePhase(a, inp);
      && Restarting(b, inp.rebaseSec) && |b.move.joints| == |a.move.joints|
      && !b.command.state.Pending? && !b.recovery.state.Requested?
      && (b.floating <==> && a.floating && !(a.command.state.Pending? && inp.commandMode)
                          && !(a.recovery.state.Requested? && inp.recoveryMode))
  {
    hide BeginCommand, BeginRecovery;
    CommandUptake(a, inp);
    RecoveryUptake(BeginCommand(a, inp), inp);
  }

  lemma ProgressKeepsFloat(a: Arm, inp: StepInput)
    ensures ProgressPhase(a, inp).floating == a.floating
  {
  }

  /** The return to normal operation, after a start-up and after a requested move: only then, and only at
      a follower that can enter position control, the float ends; after a requested move the arm is
      parked. */
  lemma NormalAgain(c: Config, a: Arm, inp: StepInput)
    requires !a.command.state.Pending?
    ensures var b := Restore(c, a, inp);
      && b.command.state.Idle? && b.ready == a.ready
      && (b.floating <==> a.floating && !(a.command.state.Moving? && c.role.Follower? && inp.normalMode))
      && (a.command.state.Moving? ==> Parked(b) && b.slewClock == Some(inp.rebaseSec))
      && (a.command.state.Idle? ==> b == a)
    ensures var b := Arrived(c, a, inp);
      && b.command.state == a.command.state && b.ready == a.ready
      && (b.floating <==> a.floating && !(a.command.state.Idle? && c.role.Follower? && inp.normalMode))
  {
  }

  /** What the answer to a hold promises: success means that the arm does not float and is parked, and
      any other answer that its joints have kept their targets. */
  lemma HoldAnswers(c: Config, a: Arm, inp: StepInput)
    ensures var b := Dispatch(c, a, Hold, inp);
      && (Answer(c, a, Hold, inp).Success? ==> !b.floating && Parked(b) && b.slewClock == Some(inp.holdSec))
      && (!Answer(c, a, Hold, inp).Success? ==>
            forall i :: 0 <= i < |a.move.joints| ==>
              i < |b.move.joints| && b.move.joints[i].tele == a.move.joints[i].tele)
  {
  }

  /** So does the answer to the request for a gravity float: a follower answers with success exactly if it
      floats then, and otherwise nothing has happened; a leader passes on what its control mode answers. */
  lemma FloatAnswers(c: Config, a: Arm, answer: ReturnCode, inp: StepInput)
    requires !InRecovery(a)
    ensures var b, r := Dispatch(c, a, GravityFloat(answer), inp), Answer(c, a, GravityFloat(answer), inp);
      && (c.role.Follower? ==> (r.Success? <==> b.floating) && (!r.Success? ==> b == a))
      && (c.role.Leader? ==> b == a && r == answer)
  {
  }

  /** A command that is refused during recovery leaves everything as it was, and exactly the stop and
      the move that ends in a stop are not refused. */
  lemma RecoveryRefuses(c: Config, a: Arm, msg: Message, inp: StepInput)
    requires InRecovery(a)
    ensures Answer(c, a, msg, inp) == BUSY || Answer(c, a, msg, inp).Success?
    ensures Answer(c, a, msg, inp).Success? <==> msg.Stop? || msg.MoveToReadyAndStop?
    ensures !Answer(c, a, msg, inp).Success? ==> Dispatch(c, a, msg, inp) == a
  {
  }

  // ----- the end of a step -----

  /** The step gets through to the commands of the clients. */
  predicate RunsToEnd(c: Config, a: Arm, inp: StepInput) {
    && GetsToAct(c, a, inp) && ActPhase(c, Acting(a, inp), inp).Go? && inp.write.Success?
    && (inp.observe.Success? || (c.role.Leader? && InRecovery(ActPhase(c, Acting(a, inp), inp).arm)))
  }

  /** The arm when the commands of this step have been carried out. */
  function AfterCommands(c: Config, a: Arm, inp: StepInput): Arm {
    DispatchAll(c, PublishObservation(c, ActPhase(c, Acting(a, inp), inp).arm, inp).arm, inp, |inp.messages|)
  }

  lemma StepEnds(c: Config, a: Arm, inp: StepInput)
    ensures var r := ActPhase(c, Acting(a, inp), inp); var b := Step(c, a, inp).arm;
      if RunsToEnd(c, a, inp) then
        var d := ClientWatchdog(c, TakeTargets(c, AfterCommands(c, a, inp), inp), inp);
        b == d.(recovery := d.recovery.(heartbeat := inp.endMs))
      else if GetsToAct(c, a, inp) then b == r.arm
      else if ReadPhase(a, inp).Go? then
        Stale(c, PreparePhase(ReadPhase(a, inp).arm, inp), inp)
        && b == MarkCompleted(PreparePhase(ReadPhase(a, inp).arm, inp).(
                                recovery := PreparePhase(ReadPhase(a, inp).arm, inp).recovery.(state := TimedOut)))
      else b == ReadPhase(a, inp).arm
  {
    hide ReadPhase, PreparePhase, ProgressPhase, ActPhase, DispatchAll, TakeTargets, ClientWatchdog, MarkCompleted,
         Stale;
  }

  lemma MoveJointsStops(c: Config, a: Arm, inp: StepInput)
    requires a.topic.running && InOrder(a) && !a.recovery.state.Requested?
    ensures var b := MoveJoints(c, a, inp).arm;
      && (!b.topic.running <==> b.recovery.state.Completed?)
      && b.command == a.command && b.topic.listening == a.topic.listening
  {
    hide Tick, TickCode, CommandedUpTo, Attempts, LoopCode, PhaseOf;
  }

  lemma MoveStops(c: Config, a: Arm, inp: StepInput)
    requires a.topic.running && InOrder(a) && !a.recovery.state.Requested?
    ensures var b := MoveToReadyPosition(c, a, inp).arm;
      && (!b.topic.running <==> b.recovery.state.Completed?)
      && b.command == a.command && b.topic.listening == a.topic.listening
  {
    hide MoveJoints, AllCleared, PhaseOf;
    MoveJointsStops(c, a, inp);
  }

  lemma ArrivedKeepsTopic(c: Config, a: Arm, inp: StepInput)
    ensures var b := Arrived(c, a, inp);
      && b.topic.running == a.topic.running && b.topic.listening == a.topic.listening && b.recovery == a.recovery
      && b.command.stopAfter == a.command.stopAfter
  {
    hide AllRebased;
  }

  lemma RestoreStops(c: Config, a: Arm, inp: StepInput)
    ensures var b := Restore(c, a, inp);
      && (b.topic.running <==> a.topic.running && !(a.command.state.Moving? && a.command.stopAfter))
      && b.topic.listening == a.topic.listening && b.recovery == a.recovery
      && b.command.stopAfter == a.command.stopAfter
  {
    hide AllRebased, AllCleared;
  }

  lemma OperateKeepsTopic(c: Config, a: Arm, inp: StepInput)
    ensures var b := OperateAsFollower(c, a, inp).arm;
      b.topic == a.topic && b.recovery == a.recovery && b.command == a.command
  {
    hide Slew.Tick, CommandedUpTo, Attempts, LoopCode, AllCleared;
  }

  lemma ActStops(c: Config, a: Arm, inp: StepInput)
    requires a.topic.running && InOrder(a) && !a.recovery.state.Requested?
    ensures var b := ActPhase(c, a, inp).arm;
      && (!b.topic.running <==>
            b.recovery.state.Completed? || (a.ready && a.command.state.Moving? && a.command.stopAfter))
      && (b.command.stopAfter <==> a.command.stopAfter) && b.topic.listening == a.topic.listening
  {
    hide MoveToReadyPosition, Arrived, Restore, OperateAsFollower, PhaseOf;
    if a.ready {
      RestoreStops(c, a, inp);
      OperateKeepsTopic(c, Restore(c, a, inp), inp);
    } else {
      MoveStops(c, a, inp);
      ArrivedKeepsTopic(c, MoveToReadyPosition(c, a, inp).arm, inp);
    }
  }

  lemma ActingStops(a: Arm, inp: StepInput)
    requires InOrder(a)
    ensures var p, b := PreparePhase(ReadPhase(a, inp).arm, inp), Acting(a, inp);
      && InOrder(p) && InOrder(b) && !p.recovery.state.Requested? && b.recovery == p.recovery
      && p.topic.running == b.topic.running == a.topic.running
      && p.topic.listening == b.topic.listening == a.topic.listening
      && (InRecovery(b) <==> InRecovery(a)) && p.command.stopAfter == b.command.stopAfter == a.command.stopAfter
  {
    hide PhaseOf, ReadJoints;
    var r := ReadPhase(a, inp).arm;
    assert InOrder(r);
    PrepareInOrder(r, inp);
    PrepareKeepsTopic(r, inp);
    ProgressInOrder(PreparePhase(r, inp), inp);
    ProgressKeepsTopic(PreparePhase(r, inp), inp);
  }

  predicate SameTopic(a: Arm, b: Arm) {
    && b.topic.running == a.topic.running && b.topic.listening == a.topic.listening
    && b.command.stopAfter == a.command.stopAfter
  }

  lemma BeginCommandKeepsTopic(a: Arm, inp: StepInput)
    ensures SameTopic(a, BeginCommand(a, inp))
  {
    hide AllRebased, AllCleared;
  }

  lemma BeginRecoveryKeepsTopic(a: Arm, inp: StepInput)
    ensures SameTopic(a, BeginRecovery(a, inp))
  {
    hide AllRebased, AllCleared;
  }

  lemma PrepareKeepsTopic(a: Arm, inp: StepInput)
    ensures SameTopic(a, PreparePhase(a, inp))
  {
    hide BeginCommand, BeginRecovery;
    BeginCommandKeepsTopic(a, inp);
    BeginRecoveryKeepsTopic(BeginCommand(a, inp), inp);
  }

  lemma ProgressKeepsTopic(a: Arm, inp: StepInput)
    ensures var b := ProgressPhase(a, inp);
      b.topic.running == a.topic.running && b.topic.listening == a.topic.listening && b.command == a.command
  {
  }

  /** The move that ends in a stop is over, and normal operation is about to be restored. */
  predicate StopsAfterMove(c: Config, a: Arm, inp: StepInput) {
    var b := Acting(a, inp);
    GetsToAct(c, a, inp) && b.ready && b.command.state.Moving? && b.command.stopAfter
  }

  lemma PublishKeepsTopic(c: Config, a: Arm, inp: StepInput)
    ensures var b := PublishObservation(c, a, inp).arm;
      && b.topic.running == a.topic.running && b.topic.listening == a.topic.listening
      && b.command == a.command && b.recovery == a.recovery && b.ready == a.ready && b.move == a.move
  {
  }

  /** The watchdog of the client pauses a follower, and that is all it does to the topic. */
  predicate SilencePauses(c: Config, a: Arm, inp: StepInput) {
    inp.silent && c.role.Follower? && a.ready && !RejectsDirectCommands(a)
  }

  lemma TargetsKeepTopic(c: Config, a: Arm, inp: StepInput)
    ensures TakeTargets(c, a, inp) == a.(move := TakeTargets(c, a, inp).move)
  {
    hide AllAimed;
  }

  lemma WatchdogKeepsTopic(c: Config, a: Arm, inp: StepInput)
    ensures var b := ClientWatchdog(c, a, inp);
      && b.topic.running == a.topic.running && b.command == a.command && b.recovery == a.recovery && b.ready == a.ready
      && (b.topic.listening <==> a.topic.listening && !SilencePauses(c, a, inp))
      && b.topic.events == a.topic.events && b.topic.recoveryPublished == a.topic.recoveryPublished
  {
    hide AllRebased, AllCleared;
  }

  lemma StreamsKeepTopic(c: Config, a: Arm, inp: StepInput)
    ensures var b := ClientWatchdog(c, TakeTargets(c, a, inp), inp);
      && b.topic.running == a.topic.running && b.command == a.command && b.recovery == a.recovery && b.ready == a.ready
      && (b.topic.listening <==> a.topic.listening && !SilencePauses(c, a, inp))
      && b.topic.events == a.topic.events && b.topic.recoveryPublished == a.topic.recoveryPublished
  {
    hide TakeTargets, ClientWatchdog;
    TargetsKeepTopic(c, a, inp);
    WatchdogKeepsTopic(c, TakeTargets(c, a, inp), inp);
  }

  /** When a step stops the topic: when it completes a recovery, when a move is over that was to end in
      a stop, or when it carries out a stop. */
  lemma StepStopsIff(c: Config, a: Arm, inp: StepInput)
    requires a.topic.running && InOrder(a)
    ensures var b := Step(c, a, inp).arm;
      && (!b.topic.running <==>
            ( || b.recovery.state.Completed? || StopsAfterMove(c, a, inp)
              || (RunsToEnd(c, a, inp) && Stops(inp, |inp.messages|))))
      && (b.command.stopAfter <==> a.command.stopAfter || (RunsToEnd(c, a, inp) && AsksStop(inp, |inp.messages|)))
  {
    hide Step, Acting, PreparePhase, ActPhase, ReadPhase, DispatchAll, TakeTargets, ClientWatchdog, PhaseOf, Stops,
         AsksStop, PublishObservation;
    StepEnds(c, a, inp);
    ActingStops(a, inp);
    var p := PreparePhase(ReadPhase(a, inp).arm, inp);
    if GetsToAct(c, a, inp) {
      ActStops(c, Acting(a, inp), inp);
      ActInOrder(c, Acting(a, inp), inp);
      var d := ActPhase(c, Acting(a, inp), inp).arm;
      PublishKeepsTopic(c, d, inp);
      BatchStops(c, PublishObservation(c, d, inp).arm, inp, |inp.messages|);
      StreamsKeepTopic(c, AfterCommands(c, a, inp), inp);
    } else if ReadPhase(a, inp).Go? {
      MarkCompletedInOrder(p.(recovery := p.recovery.(state := TimedOut)));
    } else {
      ReadOutside(a, inp);
    }
  }

  lemma ReadOutside(a: Arm, inp: StepInput)
    ensures var b := ReadPhase(a, inp).arm;
      b.topic == a.topic && b.recovery == a.recovery && b.command == a.command
    ensures ReadPhase(a, inp).Return? ==> !InRecovery(a)
  {
  }

  // ----- listening to the leader -----

  /** After the commands the arm listens: it was told to last, or it did before and nothing was said. */
  ghost predicate Hears(c: Config, a: Arm, inp: StepInput) {
    var n := |inp.messages|;
    if c.role.Leader? || (forall m: nat :: m < n ==> !Speaks(a, inp, m)) then a.topic.listening
    else exists m: nat :: LastSpeaks(a, inp, n, m) && inp.messages[m].ResumeListening?
  }

  lemma {:induction false} LastSpeaker(a: Arm, inp: StepInput, n: nat, k: nat) returns (m: nat)
    requires k < n <= |inp.messages| && Speaks(a, inp, k)
    ensures LastSpeaks(a, inp, n, m)
  {
    if Speaks(a, inp, n - 1) {
      m := n - 1;
    } else {
      m := LastSpeaker(a, inp, n - 1, k);
    }
  }

  lemma OneLastSpeaker(a: Arm, inp: StepInput, n: nat, k: nat, m: nat)
    requires n <= |inp.messages| && LastSpeaks(a, inp, n, k) && LastSpeaks(a, inp, n, m)
    ensures k == m
  {
  }

  lemma HeardIs(c: Config, a: Arm, inp: StepInput)
    ensures DispatchAll(c, a, inp, |inp.messages|).topic.listening <==> Hears(c, a, inp)
  {
    hide DispatchAll, Speaks;
    var n := |inp.messages|;
    if c.role.Leader? || (forall m: nat :: m < n ==> !Speaks(a, inp, m)) {
      NothingSaid(c, a, inp, n);
    } else {
      var k: nat :| k < n && Speaks(a, inp, k);
      var m := LastSpeaker(a, inp, n, k);
      LastWordCounts(c, a, inp, n, m);
      forall j: nat | LastSpeaks(a, inp, n, j) ensures j == m {
        OneLastSpeaker(a, inp, n, j, m);
      }
    }
  }

  lemma SameHearing(c: Config, a: Arm, d: Arm, inp: StepInput)
    requires d.topic.listening == a.topic.listening && (InRecovery(d) <==> InRecovery(a))
    ensures Hears(c, d, inp) <==> Hears(c, a, inp)
  {
    assert forall m: nat :: m < |inp.messages| ==> (Speaks(d, inp, m) <==> Speaks(a, inp, m));
    assert forall m: nat :: LastSpeaks(d, inp, |inp.messages|, m) <==> LastSpeaks(a, inp, |inp.messages|, m);
  }

  lemma ActKeepsListening(c: Config, a: Arm, inp: StepInput)
    ensures ActPhase(c, a, inp).arm.topic.listening == a.topic.listening
  {
    hide MoveToReadyPosition, Arrived, Restore, OperateAsFollower;
    MoveKeepsListening(c, a, inp);
    ArrivedKeepsTopic(c, MoveToReadyPosition(c, a, inp).arm, inp);
    RestoreStops(c, a, inp);
    OperateKeepsTopic(c, Restore(c, a, inp), inp);
  }

  lemma MoveKeepsListening(c: Config, a: Arm, inp: StepInput)
    ensures MoveToReadyPosition(c, a, inp).arm.topic.listening == a.topic.listening
  {
    hide Tick, TickCode, CommandedUpTo, Attempts, LoopCode, AllCleared;
  }

  lemma StepListensIff(c: Config, a: Arm, inp: StepInput)
    requires InOrder(a)
    ensures Step(c, a, inp).arm.topic.listening <==>
      if RunsToEnd(c, a, inp) then Hears(c, a, inp) && !SilencePauses(c, AfterCommands(c, a, inp), inp)
      else a.topic.listening
  {
    hide Step, Acting, PreparePhase, ActPhase, ReadPhase, DispatchAll, TakeTargets, ClientWatchdog, PhaseOf, Hears,
         PublishObservation, SilencePauses;
    StepEnds(c, a, inp);
    ActingStops(a, inp);
    if GetsToAct(c, a, inp) {
      ActKeepsListening(c, Acting(a, inp), inp);
      ActInOrder(c, Acting(a, inp), inp);
      var d := ActPhase(c, Acting(a, inp), inp).arm;
      PublishKeepsTopic(c, d, inp);
      HeardIs(c, PublishObservation(c, d, inp).arm, inp);
      SameHearing(c, a, PublishObservation(c, d, inp).arm, inp);
      StreamsKeepTopic(c, AfterCommands(c, a, inp), inp);
    } else {
      ReadOutside(a, inp);
    }
  }

  // ----- one turn of the node -----

  /** What a turn does to the arm after its step: it may start a recovery, it counts for the effector,
      and readiness is announced. */
  lemma TurnAfterStep(c: Config, n: Node, inp: NodeInput)
    requires n.arm.topic.running && InOrder(n.arm)
    ensures var s, b := Step(c, n.arm, inp.step).arm, Turn(c, n, inp).arm;
      && b.topic.running == s.topic.running && b.command == s.command
      && (InRecovery(b) <==> InRecovery(s) || !ArmStep(c, n.arm, inp.step).code.Success?)
      && (InRecovery(s) <==> InRecovery(n.arm))
      && (b.recovery.state.Completed? <==> s.recovery.state.Completed?)
      && (b.topic.listening <==> s.topic.listening && (InRecovery(b) ==> InRecovery(n.arm)))
  {
    hide Step, EffectorStep, PhaseOf;
    StepInOrder(c, n.arm, inp.step);
  }

  /** When a turn stops the topic. */
  lemma TurnStopsIff(c: Config, n: Node, inp: NodeInput)
    requires n.arm.topic.running && InOrder(n.arm)
    ensures var b := Turn(c, n, inp).arm;
      && (!b.topic.running <==>
            ( || b.recovery.state.Completed? || StopsAfterMove(c, n.arm, inp.step)
              || (RunsToEnd(c, n.arm, inp.step) && Stops(inp.step, |inp.step.messages|))))
      && (b.command.stopAfter <==>
            ( || n.arm.command.stopAfter
              || (RunsToEnd(c, n.arm, inp.step) && AsksStop(inp.step, |inp.step.messages|))))
  {
    hide Step, ArmStep, Turn, StopsAfterMove, RunsToEnd, Stops, AsksStop;
    StepStopsIff(c, n.arm, inp.step);
    TurnAfterStep(c, n, inp);
  }

  /** When the arm listens after a turn. */
  lemma TurnListensIff(c: Config, n: Node, inp: NodeInput)
    requires n.arm.topic.running && InOrder(n.arm)
    ensures var b := Turn(c, n, inp).arm;
      b.topic.listening <==>
        && (InRecovery(b) ==> InRecovery(n.arm))
        && if RunsToEnd(c, n.arm, inp.step) then
             Hears(c, n.arm, inp.step) && !SilencePauses(c, AfterCommands(c, n.arm, inp.step), inp.step)
           else n.arm.topic.listening
  {
    hide Step, ArmStep, Turn, RunsToEnd, Hears, SilencePauses, AfterCommands;
    StepListensIff(c, n.arm, inp.step);
    TurnAfterStep(c, n, inp);
  }

  // ----- whole runs -----

  /** Turn `j` carries out a request for a move that ends in a stop. */
  predicate AsksStopAt(c: Config, n: Node, ins: nat -> NodeInput, j: nat) {
    var a, inp := Run(c, n, ins, j).arm, ins(j).step;
    a.topic.running && RunsToEnd(c, a, inp) && AsksStop(inp, |inp.messages|)
  }

  ghost predicate StopAsked(c: Config, n: Node, ins: nat -> NodeInput, k: nat) {
    exists j: nat :: j < k && AsksStopAt(c, n, ins, j)
  }

  /** The arm is to stop after its move exactly if some turn so far has carried out such a request. */
  lemma {:induction false} StopAfterIffAsked(c: Config, n: Node, ins: nat -> NodeInput, k: nat)
    requires Healthy(n) && !n.arm.command.stopAfter
    ensures Run(c, n, ins, k).arm.command.stopAfter <==> StopAsked(c, n, ins, k)
  {
    hide Run, Turn, InOrder, RunsToEnd, AsksStop;
    if k == 0 {
      RunAtStart(c, n, ins);
    } else {
      StopAfterIffAsked(c, n, ins, k - 1);
      EventsInOrder(c, n, ins, k - 1);
      RunTurn(c, n, ins, k);
      assert StopAsked(c, n, ins, k) <==> StopAsked(c, n, ins, k - 1) || AsksStopAt(c, n, ins, k - 1);
      TurnIs(c, Run(c, n, ins, k - 1), ins(k - 1));
      if Run(c, n, ins, k - 1).arm.topic.running {
        TurnStopsIff(c, Run(c, n, ins, k - 1), ins(k - 1));
      }
    }
  }

  /** A topic that runs stops in turn `k` exactly if the turn completes a recovery, carries out a stop,
      or finds a requested move over and a move that ends in a stop was asked for in an earlier turn. */
  lemma TopicStopsIff(c: Config, n: Node, ins: nat -> NodeInput, k: nat)
    requires Healthy(n) && !n.arm.command.stopAfter && Run(c, n, ins, k).arm.topic.running
    ensures var a, b, inp := Run(c, n, ins, k).arm, Run(c, n, ins, k + 1).arm, ins(k).step;
      !b.topic.running <==>
        || b.recovery.state.Completed?
        || (RunsToEnd(c, a, inp) && Stops(inp, |inp.messages|))
        || (GetsToAct(c, a, inp) && Acting(a, inp).ready && Acting(a, inp).command.state.Moving?
            && StopAsked(c, n, ins, k))
  {
    hide Run, Turn, InOrder, RunsToEnd, Stops, StopAsked, GetsToAct, Acting;
    EventsInOrder(c, n, ins, k);
    RunTurn(c, n, ins, k + 1);
    StopAfterIffAsked(c, n, ins, k);
    TurnStopsIff(c, Run(c, n, ins, k), ins(k));
    ActingKeepsStopAfter(Run(c, n, ins, k).arm, ins(k).step);
  }

  lemma ActingKeepsStopAfter(a: Arm, inp: StepInput)
    requires InOrder(a)
    ensures Acting(a, inp).command.stopAfter == a.command.stopAfter
  {
    hide Acting, PreparePhase, ReadPhase, InOrder;
    ActingStops(a, inp);
  }

  /** A node in recovery is deaf: from the failing step on no turn of any run leaves it listening. */
  lemma {:induction false} RecoveryIsDeaf(c: Config, n: Node, ins: nat -> NodeInput, k: nat)
    requires Healthy(n) && InRecovery(Run(c, n, ins, k).arm)
    ensures !Run(c, n, ins, k).arm.topic.listening
  {
    hide Run, Turn, InOrder, RunsToEnd, SilencePauses, AfterCommands;
    if k == 0 {
      RunAtStart(c, n, ins);
    } else {
      EventsInOrder(c, n, ins, k - 1);
      RunTurn(c, n, ins, k);
      var m := Run(c, n, ins, k - 1);
      TurnIs(c, m, ins(k - 1));
      if InRecovery(m.arm) {
        RecoveryIsDeaf(c, n, ins, k - 1);
      }
      if m.arm.topic.running {
        TurnListensIff(c, m, ins(k - 1));
      }
    }
  }
}
