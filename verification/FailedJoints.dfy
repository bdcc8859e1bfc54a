/** The servos a recovery gives up on: the set only grows, it grows only by servos that cannot be
    commanded, and none of them is commanded. */
module FailedJoints {
  import opened ReadyMove
  import opened Device
  import opened ControlNode
  import opened ReadTriage
  import opened RecoveryEnds
  import opened RecoveryOrder
  import opened JointStep
  import Slew

  function Servos(js: seq<Joint>): (r: seq<int>)
    ensures |r| == |js|
    ensures forall i :: 0 <= i < |js| ==> r[i] == js[i].servo
  {
    seq(|js|, i requires 0 <= i < |js| => js[i].servo)
  }

  predicate Tolerates(a: Arm) { InRecovery(a) || !a.ready }

  /** What a step works with once a reading has been judged, and nothing else about it is changed. */
  ghost predicate Judged(before: StepInput, inp: StepInput) {
    inp == before.(read := inp.read, poses := inp.poses)
  }

  /** The verdict and the poses the step works with are those of the reading `r`: a joint that is
      not asked is not measured. */
  ghost predicate ReadBy(a: Arm, inp: StepInput, r: Reading) {
    && |r.codes| == |a.move.joints|
    && IsVerdict(Servos(a.move.joints), a.move.failed, Tolerates(a), r, inp.read)
    && forall i: nat :: i < |a.move.joints| ==>
         inp.poses(i) == PoseRead(Servos(a.move.joints), a.move.failed, Tolerates(a), r, i)
  }

  /** The reasons for giving up on the servo `s`: silent on the bus, silent or faulted when read,
      or not accepting its command. */
  ghost predicate Unusable(js: seq<Joint>, inp: StepInput, r: Reading, s: int)
    requires |r.codes| == |js|
  {
    || s in Dead(r)
    || (exists i :: 0 <= i < |js| && js[i].servo == s && Unreachable(r.codes[i]))
    || (exists i: nat :: i < |js| && js[i].servo == s && !inp.codes(i).Success?)
  }

  predicate SameServos(js: seq<Joint>, ks: seq<Joint>) {
    |ks| == |js| && forall i :: 0 <= i < |js| ==> ks[i].servo == js[i].servo
  }

  predicate SameSet(a: Arm, b: Arm) {
    b.move.failed == a.move.failed && SameServos(a.move.joints, b.move.joints)
  }

  lemma RebaseKeepsSet(a: Arm, sec: real)
    ensures SameSet(a, Rebase(a, sec))
  {
  }

  lemma BeginCommandKeepsSet(a: Arm, inp: StepInput)
    ensures SameSet(a, BeginCommand(a, inp))
  {
    hide Rebase;
    RebaseKeepsSet(a, inp.rebaseSec);
    RebaseKeepsSet(Rebase(a, inp.rebaseSec), inp.rebaseSec);
  }

  lemma BeginRecoveryKeepsSet(a: Arm, inp: StepInput)
    ensures SameSet(a, BeginRecovery(a, inp))
  {
    hide Rebase;
    RebaseKeepsSet(a, inp.rebaseSec);
    RebaseKeepsSet(Rebase(a, inp.rebaseSec), inp.rebaseSec);
  }

  lemma PrepareKeepsSet(a: Arm, inp: StepInput)
    ensures SameSet(a, PreparePhase(a, inp))
  {
    hide BeginCommand, BeginRecovery;
    BeginCommandKeepsSet(a, inp);
    BeginRecoveryKeepsSet(BeginCommand(a, inp), inp);
  }

  lemma DispatchKeepsSet(c: Config, a: Arm, msg: Message, inp: StepInput)
    ensures SameSet(a, Dispatch(c, a, msg, inp))
  {
  }

  lemma {:induction false} DispatchAllKeepsSet(c: Config, a: Arm, inp: StepInput, n: nat)
    requires n <= |inp.messages|
    ensures SameSet(a, DispatchAll(c, a, inp, n))
  {
    hide Dispatch;
    if n > 0 {
      DispatchAllKeepsSet(c, a, inp, n - 1);
      DispatchKeepsSet(c, DispatchAll(c, a, inp, n - 1), inp.messages[n - 1], inp);
    }
  }

  lemma FinishKeepsSet(c: Config, a: Arm, inp: StepInput)
    ensures FinishPhase(c, a, inp).arm.move.failed == a.move.failed
  {
    hide DispatchAll;
    DispatchAllKeepsSet(c, PublishObservation(c, a, inp).arm, inp, |inp.messages|);
  }

  lemma ProgressKeepsSet(a: Arm, inp: StepInput)
    ensures ProgressPhase(a, inp).move == a.move
  {
  }

  /** The servo `s` did not accept its command. */
  ghost predicate Refused(js: seq<Joint>, inp: StepInput, s: int) {
    exists i: nat :: i < |js| && js[i].servo == s && !inp.codes(i).Success?
  }

  ghost predicate AddsRefused(a: Arm, b: Arm, inp: StepInput, s: int) {
    a.move.failed <= b.move.failed && (s in b.move.failed && s !in a.move.failed ==> Refused(a.move.joints, inp, s))
  }

  lemma TickAddsRefused(m: Move, step: real, inp: StepInput, s: int)
    ensures m.failed <= Tick(m, step, inp.codes).failed
    ensures s in Tick(m, step, inp.codes).failed && s !in m.failed ==> Refused(m.joints, inp, s)
  {
    hide Swept, Counted, Budget, FailedMoves, Responsive, Blocked;
    var r := Ready(m, step);
    FailedMovesAre(r.joints, r.failed, inp.codes, |r.joints|, s);
  }

  lemma MoveJointsAddsRefused(c: Config, a: Arm, inp: StepInput, s: int)
    ensures AddsRefused(a, MoveJoints(c, a, inp).arm, inp, s)
  {
    hide Tick, TickCode, Refused, StopTopic, Attempts, LoopCode;
    TickAddsRefused(a.move, StepLength(c, a), inp, s);
  }

  /** A call of the move adds the servos that did not accept their command. */
  lemma MoveAddsRefused(c: Config, a: Arm, inp: StepInput, s: int)
    ensures AddsRefused(a, MoveToReadyPosition(c, a, inp).arm, inp, s)
  {
    hide MoveJoints, AwaitEffector, Refused, Rebase;
    RebaseKeepsSet(a, inp.rebaseSec);
    MoveJointsAddsRefused(c, a, inp, s);
    AwaitKeepsMove(MoveJoints(c, a, inp).arm);
  }

  lemma NormalModeKeepsSet(c: Config, a: Arm, inp: StepInput)
    ensures SameSet(a, NormalMode(c, a, inp))
  {
    hide Rebase;
    RebaseKeepsSet(a, inp.rebaseSec);
  }

  lemma OperateKeepsSet(c: Config, a: Arm, inp: StepInput)
    ensures OperateAsFollower(c, a, inp).arm.move.failed == a.move.failed
  {
    hide Slew.Tick, Attempts, LoopCode;
  }

  lemma ActAddsRefused(c: Config, a: Arm, inp: StepInput, s: int)
    ensures AddsRefused(a, ActPhase(c, a, inp).arm, inp, s)
  {
    hide MoveToReadyPosition, OperateAsFollower, NormalMode, Rebase, Refused, StopTopic;
    MoveAddsRefused(c, a, inp, s);
    var m := MoveToReadyPosition(c, a, inp).arm;
    NormalModeKeepsSet(c, m, inp);
    NormalModeKeepsSet(c, a, inp);
    RebaseKeepsSet(NormalMode(c, a, inp), inp.rebaseSec);
    OperateKeepsSet(c, Restore(c, a, inp), inp);
  }

  lemma TimeoutKeepsMove(c: Config, a: Arm, inp: StepInput)
    ensures CheckTimeout(c, a, inp).arm.move == a.move
  {
  }

  lemma StepAddsUnusable(c: Config, a: Arm, inp: StepInput, r: Reading, s: int)
    requires ReadBy(a, inp, r)
    ensures var b := Step(c, a, inp).arm;
      a.move.failed <= b.move.failed
      && (s in b.move.failed && s !in a.move.failed ==> Unusable(a.move.joints, inp, r, s))
  {
    hide PreparePhase, CheckTimeout, ProgressPhase, ActPhase, FinishPhase, StrictCode, TolerantCode;
    var a0 := ReadPhase(a, inp).arm;
    if s in inp.read.failed && s !in a.move.failed {
      OnlyUnreachableServosFail(Servos(a.move.joints), a.move.failed, InRecovery(a) || !a.ready, r, inp.read, s);
    }
    PrepareKeepsSet(a0, inp);
    var a1 := PreparePhase(a0, inp);
    TimeoutKeepsMove(c, a1, inp);
    var r1 := CheckTimeout(c, a1, inp);
    ProgressKeepsSet(r1.arm, inp);
    ActAddsRefused(c, ProgressPhase(r1.arm, inp), inp, s);
    FinishKeepsSet(c, ActPhase(c, ProgressPhase(r1.arm, inp), inp).arm, inp);
  }

  lemma StepStaysInRecovery(c: Config, a: Arm, inp: StepInput)
    requires InRecovery(a)
    ensures ArmStep(c, a, inp) == Step(c, a, inp)
  {
    hide Step;
  }

  /** One turn of a recovery: the set grows, and only by unusable servos. */
  lemma TurnAddsUnusable(c: Config, n: Node, inp: NodeInput, r: Reading, s: int)
    requires InRecovery(n.arm) && InOrder(n.arm) && ReadBy(n.arm, inp.step, r)
    ensures var b := Turn(c, n, inp).arm;
      n.arm.move.failed <= b.move.failed
      && (s in b.move.failed && s !in n.arm.move.failed ==> Unusable(n.arm.move.joints, inp.step, r, s))
  {
    hide Step, InOrder, Unusable;
    StepAddsUnusable(c, n.arm, inp.step, r, s);
    StepInOrder(c, n.arm, inp.step);
    StepStaysInRecovery(c, n.arm, inp.step);
  }

  /** Every reading of a run was judged as the arm judges readings. */
  ghost predicate ReadsJudged(c: Config, n: Node, ins: nat -> NodeInput, readings: nat -> Reading) {
    forall k: nat :: ReadBy(Run(c, n, ins, k).arm, ins(k).step, readings(k))
  }

  /** Over a whole recovery the set only grows. */
  lemma {:induction false} FailedSetOnlyGrows(c: Config, n: Node, ins: nat -> NodeInput, readings: nat -> Reading,
                                              j: nat, k: nat)
    requires n.arm.recovery.state.NoRecovery? && n.arm.topic.events == []
    requires ReadsJudged(c, n, ins, readings) && j <= k && InRecovery(Run(c, n, ins, j).arm)
    ensures Run(c, n, ins, j).arm.move.failed <= Run(c, n, ins, k).arm.move.failed
    decreases k
  {
    hide Run, Turn, ReadBy, InOrder;
    if j < k {
      RunTurn(c, n, ins, k);
      FailedSetOnlyGrows(c, n, ins, readings, j, k - 1);
      NeverBackToNormal(c, n, ins, j, k - 1);
      EventsInOrder(c, n, ins, k - 1);
      assert ReadBy(Run(c, n, ins, k - 1).arm, ins(k - 1).step, readings(k - 1));
      TurnAddsUnusable(c, Run(c, n, ins, k - 1), ins(k - 1), readings(k - 1), 0);
    }
  }

  // ----- failed joints are left alone -----

  lemma RebaseCommands(a: Arm, sec: real, i: nat)
    requires i < |a.move.joints|
    ensures |Rebase(a, sec).move.joints| == |a.move.joints|
    ensures Rebase(a, sec).move.joints[i].commands == a.move.joints[i].commands
  {
  }

  lemma MoveJointsCommands(c: Config, a: Arm, inp: StepInput, i: nat)
    requires i < |a.move.joints| && Skips(a.move.joints[i], a.move.failed)
    ensures |MoveJoints(c, a, inp).arm.move.joints| == |a.move.joints|
    ensures MoveJoints(c, a, inp).arm.move.joints[i].commands != a.move.joints[i].commands <==>
      a.move.progress.done && i < Attempts(inp.codes, |a.move.joints|)
  {
    hide ReadyJoint, FailedMoves, Counted, Budget, Attempts, LoopCode, Responsive, Blocked, StopTopic, TickCode;
    var r := Ready(a.move, StepLength(c, a));
    assert Skips(r.joints[i], r.failed);
  }

  lemma AwaitKeepsMove(a: Arm)
    ensures AwaitEffector(a).move == a.move
  {
  }

  /** A call commands a joint that had failed before exactly when the arm has arrived and holds
      its pose while it waits for its effector: that loop does not look at the failed set. */
  lemma FailedJointCommandedIff(c: Config, a: Arm, inp: StepInput, i: nat)
    requires i < |a.move.joints| && Skips(a.move.joints[i], a.move.failed)
    ensures |MoveToReadyPosition(c, a, inp).arm.move.joints| == |a.move.joints|
    ensures MoveToReadyPosition(c, a, inp).arm.move.joints[i].commands != a.move.joints[i].commands <==>
      && a.move.progress.done
      && !(c.skipHome && a.command.state.Idle? && !InRecovery(a))
      && !(c.feedForward && !inp.feedForward.Success?)
      && i < Attempts(inp.codes, |a.move.joints|)
  {
    hide MoveJoints, AwaitEffector, Rebase, Attempts, Skips;
    RebaseCommands(a, inp.rebaseSec, i);
    MoveJointsCommands(c, a, inp, i);
    AwaitKeepsMove(MoveJoints(c, a, inp).arm);
  }

  /** A tick of the slew looks at the failed set no more than that loop. */
  lemma TickCommandsIff(c: Config, a: Arm, inp: StepInput, i: nat)
    requires i < |a.move.joints|
    ensures |OperateAsFollower(c, a, inp).arm.move.joints| == |a.move.joints|
    ensures OperateAsFollower(c, a, inp).arm.move.joints[i].commands != a.move.joints[i].commands <==>
      !a.floating && !Starved(c, inp) && c.frequency > 0 && i < Attempts(inp.codes, |a.move.joints|)
  {
    hide Slew.Tick, Attempts, LoopCode;
  }

  /** The acting arm commands joint `i` although its servo has failed. */
  predicate CommandsFailed(c: Config, a: Arm, inp: StepInput, i: nat) {
    && !Starved(c, inp) && i < Attempts(inp.codes, |a.move.joints|)
    && if a.ready then c.role.Follower? && c.frequency > 0 && !Restore(c, a, inp).floating
       else a.move.progress.done && !StaysHere(c, a)
  }

  lemma ActCommandsFailedIff(c: Config, a: Arm, inp: StepInput, i: nat)
    requires i < |a.move.joints| && Skips(a.move.joints[i], a.move.failed)
    ensures |ActPhase(c, a, inp).arm.move.joints| == |a.move.joints|
    ensures ActPhase(c, a, inp).arm.move.joints[i].commands != a.move.joints[i].commands
       <==> CommandsFailed(c, a, inp, i)
  {
    hide MoveToReadyPosition, Arrived, Restore, OperateAsFollower, Attempts;
    if a.ready {
      RestoreStill(c, a, inp, i);
      TickCommandsIff(c, Restore(c, a, inp), inp, i);
    } else {
      FailedJointCommandedIff(c, a, inp, i);
      ArrivedStill(c, MoveToReadyPosition(c, a, inp).arm, inp, i);
    }
  }

  /** A whole turn commands a joint whose servo has failed exactly when it gets to act and is either
      the loop that holds a finished arm or a tick of the slew. */
  lemma FailedJointCommandedInTurnIff(c: Config, n: Node, inp: NodeInput, i: nat)
    requires n.arm.topic.running
    requires i < |n.arm.move.joints| && Excluded(n.arm.move.joints[i].servo, inp.step.read.failed)
    ensures |Turn(c, n, inp).arm.move.joints| == |n.arm.move.joints|
    ensures Turn(c, n, inp).arm.move.joints[i].commands != n.arm.move.joints[i].commands <==>
      GetsToAct(c, n.arm, inp.step) && CommandsFailed(c, Acting(n.arm, inp.step), inp.step, i)
  {
    hide PreparePhase, ProgressPhase, ActPhase, FinishPhase, Step, Turn, CommandsFailed, SameJoint, CheckTimeout;
    TurnIs(c, n, inp);
    StepIs(c, n.arm, inp.step);
    var r := ReadPhase(n.arm, inp.step).arm;
    PrepareStill(r, inp.step, i);
    PrepareKeepsSet(r, inp.step);
    var p := PreparePhase(r, inp.step);
    SameCommands(r, p, i);
    ProgressKeepsSet(p, inp.step);
    ProgressStill(p, inp.step);
    var b := Acting(n.arm, inp.step);
    ActCommandsFailedIff(c, b, inp.step, i);
    var d := ActPhase(c, b, inp.step).arm;
    FinishStill(c, d, inp.step, i);
    SameCommands(d, FinishPhase(c, d, inp.step).arm, i);
    SameJointCount(r, p, i);
    SameJointCount(d, FinishPhase(c, d, inp.step).arm, i);
  }

  lemma SameCommands(a: Arm, b: Arm, i: nat)
    requires i < |a.move.joints| && (SameJoint(a, b, i, false) || SameJoint(a, b, i, true))
    ensures i < |b.move.joints| && b.move.joints[i].commands == a.move.joints[i].commands
  {
  }

  lemma SameJointCount(a: Arm, b: Arm, i: nat)
    requires SameJoint(a, b, i, false) || SameJoint(a, b, i, true)
    ensures |b.move.joints| == |a.move.joints|
  {
  }

  // ----- over whole recoveries -----

  /** A recovery that has been taken up and whose topic still runs is under way: the arm is not
      ready, and its joints have not finished. */
  predicate Homeward(a: Arm) {
    a.topic.running && InRecovery(a) && !a.recovery.state.Requested? ==>
      a.recovery.state.MovingSlow? && !a.ready && !a.move.progress.done
  }

  lemma PrepareHomeward(a: Arm, inp: StepInput)
    requires Homeward(a) && InRecovery(a) && a.topic.running
    ensures var b := PreparePhase(a, inp);
      b.recovery.state.MovingSlow? && !b.ready && !b.move.progress.done && b.recovery.closed == a.recovery.closed
  {
  }

  lemma MarkStops(a: Arm)
    requires InRecovery(a) && !a.recovery.closed
    ensures !MarkCompleted(a).topic.running && InRecovery(MarkCompleted(a))
  {
  }

  lemma MoveHomeward(c: Config, a: Arm, inp: StepInput)
    requires a.recovery.state.MovingSlow? && !a.recovery.closed && !a.ready && !a.move.progress.done
    ensures Homeward(ActPhase(c, a, inp).arm) && InRecovery(ActPhase(c, a, inp).arm)
    ensures !ActPhase(c, a, inp).arm.recovery.state.Requested?
  {
    hide Tick, TickCode, StopTopic;
    MarkStops(a.(move := Tick(a.move, StepLength(c, a), inp.codes)));
    StopTopicStops(Emit(a.topic, ShutdownAfterError));
  }

  lemma StopTopicStops(t: Topic)
    ensures !StopTopic(t).running
  {
  }

  lemma DispatchHomeward(c: Config, a: Arm, msg: Message, inp: StepInput)
    requires Homeward(a) && InRecovery(a) && !a.recovery.state.Requested?
    ensures Homeward(Dispatch(c, a, msg, inp)) && Dispatch(c, a, msg, inp).recovery == a.recovery
  {
  }

  lemma {:induction false} DispatchAllHomeward(c: Config, a: Arm, inp: StepInput, n: nat)
    requires Homeward(a) && InRecovery(a) && !a.recovery.state.Requested? && n <= |inp.messages|
    ensures Homeward(DispatchAll(c, a, inp, n)) && DispatchAll(c, a, inp, n).recovery == a.recovery
  {
    hide Dispatch;
    if n > 0 {
      DispatchAllHomeward(c, a, inp, n - 1);
      DispatchHomeward(c, DispatchAll(c, a, inp, n - 1), inp.messages[n - 1], inp);
    }
  }

  lemma FinishHomeward(c: Config, a: Arm, inp: StepInput)
    requires Homeward(a) && InRecovery(a) && !a.recovery.state.Requested?
    ensures Homeward(FinishPhase(c, a, inp).arm)
  {
    hide DispatchAll;
    DispatchAllHomeward(c, PublishObservation(c, a, inp).arm, inp, |inp.messages|);
  }

  /** The arm when it acts in a turn of a recovery. */
  lemma ActingHomeward(a: Arm, inp: StepInput)
    requires Homeward(a) && InOrder(a) && InRecovery(a) && a.topic.running
    ensures var b := Acting(a, inp);
      && b.recovery.state.MovingSlow? && !b.recovery.closed && !b.ready && !b.move.progress.done
      && ReadPhase(a, inp).Go? && PreparePhase(ReadPhase(a, inp).arm, inp).recovery.state.MovingSlow?
      && !PreparePhase(ReadPhase(a, inp).arm, inp).recovery.closed
  {
    hide PreparePhase, ProgressPhase, PhaseOf;
    var r := ReadPhase(a, inp).arm;
    PrepareHomeward(r, inp);
    ProgressAlike(PreparePhase(r, inp), inp);
  }

  lemma StepHomeward(c: Config, a: Arm, inp: StepInput)
    requires Homeward(a) && InOrder(a) && InRecovery(a) && a.topic.running
    ensures Homeward(Step(c, a, inp).arm)
  {
    hide PreparePhase, ProgressPhase, ActPhase, FinishPhase, ReadPhase, MarkCompleted;
    ActingHomeward(a, inp);
    var p := PreparePhase(ReadPhase(a, inp).arm, inp);
    MarkStops(p.(recovery := p.recovery.(state := TimedOut)));
    var b := Acting(a, inp);
    MoveHomeward(c, b, inp);
    FinishHomeward(c, ActPhase(c, b, inp).arm, inp);
  }

  lemma AnnounceHomeward(c: Config, n: Node)
    requires Homeward(n.arm)
    ensures Homeward(Announce(c, n).arm)
  {
  }

  lemma TurnHomeward(c: Config, n: Node, inp: NodeInput)
    requires Homeward(n.arm) && InOrder(n.arm)
    ensures Homeward(Turn(c, n, inp).arm)
  {
    hide Step, ArmStep, Announce, PhaseOf;
    if n.arm.topic.running {
      if InRecovery(n.arm) {
        StepHomeward(c, n.arm, inp.step);
        StepStaysInRecovery(c, n.arm, inp.step);
        StepInOrder(c, n.arm, inp.step);
      } else {
        ArmStepInOrder(c, n.arm, inp.step);
      }
      AnnounceHomeward(c, n.(arm := Supervised(c, n.arm, inp)));
    }
  }

  lemma {:induction false} RunHomeward(c: Config, n: Node, ins: nat -> NodeInput, k: nat)
    requires Healthy(n)
    ensures Homeward(Run(c, n, ins, k).arm)
  {
    hide Turn, InOrder;
    if k > 0 {
      RunHomeward(c, n, ins, k - 1);
      EventsInOrder(c, n, ins, k - 1);
      TurnHomeward(c, Run(c, n, ins, k - 1), ins(k - 1));
    }
  }

  lemma ActLeavesFailedAlone(c: Config, a: Arm, inp: StepInput, i: nat)
    requires InRecovery(a) && !a.ready && !a.move.progress.done
    requires i < |a.move.joints| && Skips(a.move.joints[i], a.move.failed)
    ensures |ActPhase(c, a, inp).arm.move.joints| == |a.move.joints|
    ensures ActPhase(c, a, inp).arm.move.joints[i].commands == a.move.joints[i].commands
  {
    hide MoveToReadyPosition, Arrived;
    FailedJointCommandedIff(c, a, inp, i);
    ArrivedStill(c, MoveToReadyPosition(c, a, inp).arm, inp, i);
  }

  lemma StepLeavesFailedAlone(c: Config, a: Arm, inp: StepInput, i: nat)
    requires Homeward(a) && InOrder(a) && InRecovery(a) && a.topic.running
    requires i < |a.move.joints| && Excluded(a.move.joints[i].servo, inp.read.failed)
    ensures i < |Step(c, a, inp).arm.move.joints|
    ensures Step(c, a, inp).arm.move.joints[i].commands == a.move.joints[i].commands
  {
    hide PreparePhase, ProgressPhase, ActPhase, FinishPhase, MarkCompleted, Homeward, InOrder, SameJoint;
    ActingHomeward(a, inp);
    var r := ReadPhase(a, inp).arm;
    PrepareStill(r, inp, i);
    PrepareKeepsSet(r, inp);
    var p := PreparePhase(r, inp);
    SameCommands(r, p, i);
    ProgressKeepsSet(p, inp);
    TimeoutKeepsMove(c, p, inp);
    var b := Acting(a, inp);
    ActLeavesFailedAlone(c, b, inp, i);
    var d := ActPhase(c, b, inp).arm;
    FinishStill(c, d, inp, i);
    SameCommands(d, FinishPhase(c, d, inp).arm, i);
  }

  /** In every turn of every recovery, a joint whose servo is in the set when the call of the ready
      move begins, that is after the reading, is sent nothing. */
  lemma RecoveryLeavesFailedJointsAlone(c: Config, n: Node, ins: nat -> NodeInput, k: nat, i: nat)
    requires Healthy(n) && InRecovery(Run(c, n, ins, k).arm)
    requires i < |Run(c, n, ins, k).arm.move.joints|
    requires Excluded(Run(c, n, ins, k).arm.move.joints[i].servo, ins(k).step.read.failed)
    ensures i < |Run(c, n, ins, k + 1).arm.move.joints|
    ensures Run(c, n, ins, k + 1).arm.move.joints[i].commands == Run(c, n, ins, k).arm.move.joints[i].commands
  {
    hide Run, Turn, Step, Homeward, InOrder;
    RunHomeward(c, n, ins, k);
    EventsInOrder(c, n, ins, k);
    RunTurn(c, n, ins, k + 1);
    var m := Run(c, n, ins, k);
    TurnIs(c, m, ins(k));
    if m.arm.topic.running {
      StepLeavesFailedAlone(c, m.arm, ins(k).step, i);
    }
  }

  /** In particular nothing is sent to a servo the recovery has given up on in an earlier turn. */
  lemma GivenUpForGood(c: Config, n: Node, ins: nat -> NodeInput, readings: nat -> Reading, j: nat, k: nat, i: nat)
    requires Healthy(n) && j <= k && InRecovery(Run(c, n, ins, j).arm) && ReadsJudged(c, n, ins, readings)
    requires i < |Run(c, n, ins, k).arm.move.joints|
    requires Excluded(Run(c, n, ins, k).arm.move.joints[i].servo, Run(c, n, ins, j).arm.move.failed)
    ensures i < |Run(c, n, ins, k + 1).arm.move.joints|
    ensures Run(c, n, ins, k + 1).arm.move.joints[i].commands == Run(c, n, ins, k).arm.move.joints[i].commands
  {
    hide Run, StrictCode, TolerantCode;
    FailedSetOnlyGrows(c, n, ins, readings, j, k);
    NeverBackToNormal(c, n, ins, j, k);
    assert ReadBy(Run(c, n, ins, k).arm, ins(k).step, readings(k));
    RecoveryLeavesFailedJointsAlone(c, n, ins, k, i);
  }
}
