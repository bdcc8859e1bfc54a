/** What one control step does to a joint of a follower arm, exactly: whether it is measured, where
    its command starts from, and where the slew starts from next. */
module JointStep {
  import opened Wrappers
  import opened Control
  import opened Reals
  import opened ReadyMove
  import opened Device
  import opened ControlNode
  import Slew

  /** No command and nothing measured; the slew starts over from the pose, or goes on. */
  predicate Still(j: Joint, k: Joint, restarted: bool) {
    && k.commands == j.commands && k.sent == j.sent && k.pos == j.pos && k.velMax == j.velMax && k.seen == j.seen
    && k.anchors == j.anchors && k.since == j.since && k.prev == if restarted then j.pos else j.prev
  }

  /** One command, which starts from the pose or from where the slew was; afterwards the slew starts
      over from the pose, or goes on from the command.  The history starts over from the command. */
  predicate Sent(j: Joint, k: Joint, fromPose: bool, restarted: bool, reach: real) {
    && k.commands == j.commands + 1 && k.pos == j.pos && k.velMax == j.velMax && k.seen == j.seen
    && k.anchors == (if j.seen then {k.sent, k.pos} else {k.sent}) && k.since == {k.sent}
    && k.prev == (if restarted then k.pos else k.sent)
    && Abs(k.sent - if fromPose then j.pos else j.prev) <= reach
  }

  predicate Acted(j: Joint, k: Joint, before: bool, fromPose: bool, after: bool, reach: real) {
    Still(j, k, before || after) || Sent(j, k, fromPose, after, reach)
  }

  /** The same seen from joint `i` of an arm. */
  predicate SameJoint(a: Arm, b: Arm, i: nat, restarted: bool) {
    |b.move.joints| == |a.move.joints| && (i < |a.move.joints| ==> Still(a.move.joints[i], b.move.joints[i], restarted))
  }

  predicate ActedAt(a: Arm, b: Arm, i: nat, before: bool, fromPose: bool, after: bool, reach: real) {
    && |b.move.joints| == |a.move.joints|
    && (i < |a.move.joints| ==> Acted(a.move.joints[i], b.move.joints[i], before, fromPose, after, reach))
  }

  lemma ThenStill(a: Arm, b: Arm, d: Arm, i: nat, before: bool, fromPose: bool, after: bool, more: bool, reach: real)
    requires i < |a.move.joints| && ActedAt(a, b, i, before, fromPose, after, reach) && SameJoint(b, d, i, more)
    ensures ActedAt(a, d, i, before, fromPose, after || more, reach)
  {
  }

  lemma StillThen(a: Arm, b: Arm, d: Arm, i: nat, first: bool, before: bool, fromPose: bool, after: bool, reach: real)
    requires i < |a.move.joints| && SameJoint(a, b, i, first) && ActedAt(b, d, i, before, fromPose, after, reach)
    ensures ActedAt(a, d, i, first || before, first || fromPose, after, reach)
  {
  }

  lemma Widen(a: Arm, b: Arm, i: nat, before: bool, fromPose: bool, after: bool, reach: real, wider: real)
    requires i < |a.move.joints| && ActedAt(a, b, i, before, fromPose, after, reach) && reach <= wider
    ensures ActedAt(a, b, i, before, fromPose, after, wider)
  {
  }

  // ----- taking up a request or a recovery -----

  lemma RebaseStill(a: Arm, sec: real, i: nat)
    ensures SameJoint(a, Rebase(a, sec), i, true) && SameJoint(a, ResetSlew(a, sec), i, true)
  {
  }

  lemma ModeStill(a: Arm, ok: bool, sec: real, i: nat)
    ensures SameJoint(a, FollowerMode(a, ok, sec), i, ok)
  {
    hide ResetSlew;
    RebaseStill(a, sec, i);
  }

  predicate Waits(a: Arm) { a.command.state.Pending? || a.recovery.state.Requested? }

  lemma PrepareStill(a: Arm, inp: StepInput, i: nat)
    ensures SameJoint(a, PreparePhase(a, inp), i, Waits(a))
  {
    hide Rebase, ResetSlew, FollowerMode;
    var b := BeginCommand(a, inp);
    RebaseStill(a, inp.rebaseSec, i);
    ModeStill(Rebase(a, inp.rebaseSec), inp.commandMode, inp.rebaseSec, i);
    BeginKeepsRecovery(a, inp);
    RebaseStill(b, inp.rebaseSec, i);
    ModeStill(Rebase(b, inp.rebaseSec), inp.recoveryMode, inp.rebaseSec, i);
  }

  lemma BeginKeepsRecovery(a: Arm, inp: StepInput)
    ensures BeginCommand(a, inp).recovery == a.recovery
  {
  }

  // ----- the ready move -----

  lemma ReadyCommandClose(j: Joint, step: real)
    requires step >= 0.0
    ensures Sent(j, ReadyJoint(j, step), Crossed(j), false, step)
  {
    assert Abs(Approach(Base(j), j.target, step) - Base(j)) <= step;
  }

  lemma TickJoint(m: Move, step: real, codes: nat -> ReturnCode, i: nat)
    requires i < |m.joints| && step >= 0.0
    ensures |Tick(m, step, codes).joints| == |m.joints|
    ensures var first := m.progress.initCount < 1; var j := m.joints[i];
      Acted(j, Tick(m, step, codes).joints[i], first, first || Crossed(j), false, step)
  {
    hide ReadyJoint, Budget, FailedMoves, Counted, Responsive, Blocked;
    var r := Ready(m, step);
    assert Still(m.joints[i], r.joints[i], m.progress.initCount < 1);
    ReadyCommandClose(r.joints[i], step);
  }

  /** The first call of a move starts the slew over. */
  predicate MoveBegins(a: Arm) { !a.move.progress.done && a.move.progress.initCount < 1 }

  /** A ready move commands joint `i` from its pose: in its first call, when the pose has crossed the
      target, and in the loop that holds a finished arm. */
  predicate MovesFromPose(a: Arm, i: nat)
    requires i < |a.move.joints|
  {
    a.move.progress.done || a.move.progress.initCount < 1 || Crossed(a.move.joints[i])
  }

  lemma MoveJointsExactly(c: Config, a: Arm, inp: StepInput, i: nat)
    requires i < |a.move.joints| && StepLength(c, a) >= 0.0
    ensures ActedAt(a, MoveJoints(c, a, inp).arm, i, MoveBegins(a), MovesFromPose(a, i), false, StepLength(c, a))
  {
    hide Tick, TickCode, LoopCode, Attempts;
    if !a.move.progress.done {
      TickJoint(a.move, StepLength(c, a), inp.codes, i);
    }
  }

  lemma AwaitKeepsJoints(a: Arm)
    ensures AwaitEffector(a).move == a.move
  {
  }

  /** A start-up that is told not to go home. */
  predicate StaysHere(c: Config, a: Arm) { c.skipHome && a.command.state.Idle? && !InRecovery(a) }

  predicate Starved(c: Config, inp: StepInput) { c.feedForward && !inp.feedForward.Success? }

  lemma MoveExactly(c: Config, a: Arm, inp: StepInput, i: nat)
    requires i < |a.move.joints| && StepLength(c, a) >= 0.0
    ensures ActedAt(a, MoveToReadyPosition(c, a, inp).arm, i, StaysHere(c, a) || (!Starved(c, inp) && MoveBegins(a)),
                    MovesFromPose(a, i), false, StepLength(c, a))
  {
    hide MoveJoints, AwaitEffector, Rebase, MovesFromPose, MoveBegins;
    RebaseStill(a, inp.rebaseSec, i);
    MoveJointsExactly(c, a, inp, i);
    AwaitKeepsJoints(MoveJoints(c, a, inp).arm);
  }

  // ----- normal operation -----

  /** What a joint covers in `dt` at the speed `v`. */
  function Covers(v: real, dt: real): real { v * dt }

  /** The time since the last slew or rebase, as the slew of this step sees it: a move that has
      just been restored was rebased in the same step. */
  function Elapsed(c: Config, a: Arm, inp: StepInput): (dt: real)
    requires c.frequency > 0
    ensures dt > 0.0
  {
    DivPositive(1.0, c.frequency as real);
    SlewTime(c, if a.command.state.Moving? then a.(slewClock := Some(inp.rebaseSec)) else a, inp)
  }

  lemma TickTimeIsPositive(c: Config, a: Arm, inp: StepInput)
    requires c.frequency > 0
    ensures SlewTime(c, a, inp) > 0.0
  {
    DivPositive(1.0, c.frequency as real);
  }

  lemma RestoreClock(c: Config, a: Arm, inp: StepInput)
    requires c.frequency > 0
    ensures SlewTime(c, Restore(c, a, inp), inp) == Elapsed(c, a, inp)
  {
  }

  /** A follower arm as the configuration is validated at start-up. */
  ghost predicate Valid(c: Config, a: Arm) {
    && c.role.Follower? && c.frequency > 0 && c.normalStep >= 0.0 && c.errorStep >= 0.0 && |a.move.joints| > 0
    && forall i :: 0 <= i < |a.move.joints| ==> a.move.joints[i].velMax > 0.0
  }

  /** The gravity float is aborted. */
  predicate Aborts(a: Arm, inp: StepInput) { a.floating && inp.runaway && inp.floating.Success? }

  lemma OperateClose(c: Config, a: Arm, inp: StepInput, i: nat)
    requires i < |a.move.joints| && Valid(c, a) && SlewTime(c, a, inp) > 0.0
    ensures ActedAt(a, OperateAsFollower(c, a, inp).arm, i, Aborts(a, inp), false, false,
                    Covers(a.move.joints[i].velMax, SlewTime(c, a, inp)))
  {
    hide Slew.Tick, Attempts, LoopCode, SlewTime;
    var js := a.move.joints;
    var dt := SlewTime(c, a, inp);
    Slew.TickWithinLimits(Previous(js), Goals(js, inp.safety), Speeds(js), dt, i);
    var targets := Slew.Tick(Previous(js), Goals(js, inp.safety), Speeds(js), dt);
    assert Abs(targets[i] - js[i].prev) <= Covers(js[i].velMax, dt);
    var b := OperateAsFollower(c, a, inp).arm.move.joints;
    assert b == js || b == AllCleared(js) || b == CommandedUpTo(js, targets, Attempts(inp.codes, |js|));
  }

  lemma RestoreStill(c: Config, a: Arm, inp: StepInput, i: nat)
    ensures SameJoint(a, Restore(c, a, inp), i, a.command.state.Moving?)
  {
    hide Rebase, FollowerMode;
    ModeStill(a, inp.normalMode, inp.rebaseSec, i);
    RebaseStill(NormalMode(c, a, inp), inp.rebaseSec, i);
  }

  lemma RestoreKeepsSpeeds(c: Config, a: Arm, inp: StepInput)
    requires Valid(c, a)
    ensures Valid(c, Restore(c, a, inp))
  {
  }

  // ----- the acting phase -----

  /** The acting arm starts the slew over, before any command of the step. */
  predicate StartsOver(c: Config, a: Arm, inp: StepInput) {
    if a.ready then a.command.state.Moving? || Aborts(a, inp)
    else StaysHere(c, a) || (!Starved(c, inp) && MoveBegins(a))
  }

  /** It commands joint `i` from its pose. */
  predicate ActsFromPose(a: Arm, i: nat)
    requires i < |a.move.joints|
  {
    if a.ready then a.command.state.Moving? else MovesFromPose(a, i)
  }

  /** It becomes ready at the end of its start-up move and switches to normal mode. */
  predicate StartupEnds(c: Config, a: Arm, inp: StepInput) {
    && !a.ready && MoveToReadyPosition(c, a, inp).Go? && MoveToReadyPosition(c, a, inp).arm.ready
    && MoveToReadyPosition(c, a, inp).arm.command.state.Idle? && c.role.Follower? && inp.normalMode
  }

  lemma ArrivedStill(c: Config, a: Arm, inp: StepInput, i: nat)
    ensures SameJoint(a, Arrived(c, a, inp), i, a.command.state.Idle? && c.role.Follower? && inp.normalMode)
  {
    hide FollowerMode;
    ModeStill(a, inp.normalMode, inp.rebaseSec, i);
  }

  /** How far a command of the acting arm may be from where it starts. */
  function ActReach(c: Config, a: Arm, inp: StepInput, i: nat): real
    requires c.frequency > 0 && i < |a.move.joints|
  {
    if a.ready then Covers(a.move.joints[i].velMax, Elapsed(c, a, inp)) else StepLength(c, a)
  }

  lemma ReadyActs(c: Config, a: Arm, inp: StepInput, i: nat)
    requires i < |a.move.joints| && Valid(c, a) && a.ready
    ensures ActedAt(a, ActPhase(c, a, inp).arm, i, StartsOver(c, a, inp), ActsFromPose(a, i), false,
                    ActReach(c, a, inp, i))
  {
    hide Restore, OperateAsFollower, SlewTime, Elapsed, Acted, Valid;
    var b := Restore(c, a, inp);
    RestoreStill(c, a, inp, i);
    RestoreKeepsSpeeds(c, a, inp);
    RestoreClock(c, a, inp);
    RestoreFloats(c, a, inp);
    IsFollower(c, a);
    OperateClose(c, b, inp, i);
    var d := OperateAsFollower(c, b, inp).arm;
    assert Covers(b.move.joints[i].velMax, SlewTime(c, b, inp)) == ActReach(c, a, inp, i);
    StillThen(a, b, d, i, a.command.state.Moving?, Aborts(b, inp), false, false, ActReach(c, a, inp, i));
    SameAsBefore(a, d, i, a.command.state.Moving? || Aborts(b, inp), StartsOver(c, a, inp), a.command.state.Moving?,
                 ActReach(c, a, inp, i));
  }

  lemma IsFollower(c: Config, a: Arm)
    requires Valid(c, a)
    ensures c.role.Follower? && c.frequency > 0
  {
  }

  lemma SameAsBefore(a: Arm, d: Arm, i: nat, before: bool, other: bool, fromPose: bool, reach: real)
    requires ActedAt(a, d, i, before, fromPose, false, reach) && before == other
    ensures ActedAt(a, d, i, other, fromPose, false, reach)
  {
  }

  /** Whether the float is aborted after the restoring makes no difference to where the slew starts. */
  lemma RestoreFloats(c: Config, a: Arm, inp: StepInput)
    ensures a.command.state.Moving? || Aborts(Restore(c, a, inp), inp) <==> a.command.state.Moving? || Aborts(a, inp)
  {
  }

  lemma UnreadyActs(c: Config, a: Arm, inp: StepInput, i: nat)
    requires i < |a.move.joints| && Valid(c, a) && !a.ready
    ensures ActedAt(a, ActPhase(c, a, inp).arm, i, StartsOver(c, a, inp), ActsFromPose(a, i), StartupEnds(c, a, inp),
                    ActReach(c, a, inp, i))
  {
    hide MoveToReadyPosition, Arrived, Acted, MovesFromPose, StaysHere, MoveBegins, Starved;
    MoveExactly(c, a, inp, i);
    var b := MoveToReadyPosition(c, a, inp).arm;
    ArrivedStill(c, b, inp, i);
    if MoveToReadyPosition(c, a, inp).Go? && b.ready {
      ThenStill(a, b, Arrived(c, b, inp), i, StartsOver(c, a, inp), ActsFromPose(a, i), false,
                b.command.state.Idle? && c.role.Follower? && inp.normalMode, StepLength(c, a));
    }
  }

  lemma ActExactly(c: Config, a: Arm, inp: StepInput, i: nat)
    requires i < |a.move.joints| && Valid(c, a)
    ensures ActedAt(a, ActPhase(c, a, inp).arm, i, StartsOver(c, a, inp), ActsFromPose(a, i), StartupEnds(c, a, inp),
                    ActReach(c, a, inp, i))
  {
    hide ActPhase, Acted, MovesFromPose, ActReach;
    if a.ready {
      ReadyActs(c, a, inp, i);
      assert !StartupEnds(c, a, inp);
    } else {
      UnreadyActs(c, a, inp, i);
    }
  }

  // ----- the end of a step -----

  /** A hold takes effect. */
  predicate HoldTakes(a: Arm, inp: StepInput) {
    if a.floating then inp.holdMode.Success? else !RejectsDirectCommands(a)
  }

  /** A hold among the first `n` messages takes effect. */
  predicate HeldUpTo(c: Config, a: Arm, inp: StepInput, n: nat)
    requires n <= |inp.messages|
  {
    n > 0 && ( || HeldUpTo(c, a, inp, n - 1)
               || (inp.messages[n - 1].Hold? && !InRecovery(DispatchAll(c, a, inp, n - 1))
                   && HoldTakes(DispatchAll(c, a, inp, n - 1), inp)))
  }

  /** The client's silence makes the arm hold. */
  predicate SilenceHolds(c: Config, a: Arm, inp: StepInput) {
    inp.silent && a.ready && !RejectsDirectCommands(a) && c.role.Follower? && HoldTakes(a, inp)
  }

  /** The end of the step `a` is in restarts the slew: it gets that far, and a hold takes effect. */
  predicate FinishHolds(c: Config, a: Arm, inp: StepInput) {
    && inp.write.Success? && PublishObservation(c, a, inp).Go?
    && var b := PublishObservation(c, a, inp).arm;
      || HeldUpTo(c, b, inp, |inp.messages|)
      || SilenceHolds(c, TakeTargets(c, DispatchAll(c, b, inp, |inp.messages|), inp), inp)
  }

  lemma HoldStill(a: Arm, inp: StepInput, i: nat)
    ensures SameJoint(a, HoldNow(a, inp), i, HoldTakes(a, inp))
  {
  }

  lemma DispatchStill(c: Config, a: Arm, msg: Message, inp: StepInput, i: nat)
    ensures SameJoint(a, Dispatch(c, a, msg, inp), i, msg.Hold? && !InRecovery(a) && HoldTakes(a, inp))
  {
    hide HoldNow, HoldTakes;
    HoldStill(a, inp, i);
  }

  lemma {:induction false} DispatchAllStill(c: Config, a: Arm, inp: StepInput, n: nat, i: nat)
    requires n <= |inp.messages|
    ensures SameJoint(a, DispatchAll(c, a, inp, n), i, HeldUpTo(c, a, inp, n))
  {
    hide Dispatch, HoldTakes;
    if n > 0 {
      DispatchAllStill(c, a, inp, n - 1, i);
      DispatchStill(c, DispatchAll(c, a, inp, n - 1), inp.messages[n - 1], inp, i);
    }
  }

  lemma WatchdogStill(c: Config, a: Arm, inp: StepInput, i: nat)
    ensures SameJoint(a, ClientWatchdog(c, a, inp), i, SilenceHolds(c, a, inp))
  {
    hide HoldNow;
    HoldStill(SetListening(c, a, false), inp, i);
  }

  lemma TargetsStill(c: Config, a: Arm, inp: StepInput, i: nat)
    ensures SameJoint(a, TakeTargets(c, a, inp), i, false)
  {
  }

  lemma FinishStill(c: Config, a: Arm, inp: StepInput, i: nat)
    ensures SameJoint(a, FinishPhase(c, a, inp).arm, i, FinishHolds(c, a, inp))
  {
    hide DispatchAll, TakeTargets, ClientWatchdog, HeldUpTo, SilenceHolds;
    var b := PublishObservation(c, a, inp).arm;
    DispatchAllStill(c, b, inp, |inp.messages|, i);
    var d := DispatchAll(c, b, inp, |inp.messages|);
    TargetsStill(c, d, inp, i);
    WatchdogStill(c, TakeTargets(c, d, inp), inp, i);
  }

  // ----- the whole step -----

  lemma ProgressStill(a: Arm, inp: StepInput)
    ensures ProgressPhase(a, inp).move == a.move && ProgressPhase(a, inp).ready == a.ready
    ensures ProgressPhase(a, inp).recovery == a.recovery && ProgressPhase(a, inp).command == a.command
    ensures ProgressPhase(a, inp).slewClock == a.slewClock
  {
  }

  lemma PrepareSlowOrReady(a: Arm, inp: StepInput)
    ensures PreparePhase(a, inp).recovery.slow == a.recovery.slow
    ensures PreparePhase(a, inp).ready ==> PreparePhase(a, inp) == a
  {
  }

  lemma MarkKeepsJoints(a: Arm)
    ensures MarkCompleted(a).move == a.move
  {
  }

  /** How far a command of this step may be from where it starts. */
  function Reach(c: Config, a: Arm, inp: StepInput, i: nat): real
    requires c.frequency > 0 && i < |a.move.joints|
  {
    Max(StepLength(c, a), Covers(a.move.joints[i].velMax, Elapsed(c, a, inp)))
  }

  lemma ReadIs(a: Arm, inp: StepInput, i: nat)
    requires i < |a.move.joints|
    ensures |ReadPhase(a, inp).arm.move.joints| == |a.move.joints|
    ensures ReadPhase(a, inp).arm.move.joints[i] == Sensed(a.move.joints[i], inp.poses(i), inp.stalled(i))
    ensures Waits(ReadPhase(a, inp).arm) == Waits(a)
  {
  }

  /** The acting arm; the bound at the start of the step covers the bound at the time of the command. */
  lemma ActingIs(c: Config, a: Arm, inp: StepInput, i: nat)
    requires i < |a.move.joints| && Valid(c, a)
    ensures var b := Acting(a, inp);
      && SameJoint(ReadPhase(a, inp).arm, b, i, Waits(a)) && |b.move.joints| == |a.move.joints|
      && b.move.joints[i].velMax == a.move.joints[i].velMax
      && ActReach(c, b, inp, i) <= Reach(c, a, inp, i)
  {
    hide PreparePhase, ProgressPhase;
    var r := ReadPhase(a, inp).arm;
    ReadIs(a, inp, i);
    PrepareStill(r, inp, i);
    PrepareSlowOrReady(r, inp);
    ProgressStill(PreparePhase(r, inp), inp);
  }

  lemma ActingIsValid(c: Config, a: Arm, inp: StepInput)
    requires Valid(c, a)
    ensures Valid(c, Acting(a, inp))
  {
    hide Acting, Elapsed, StepLength, Reach, ActReach, Still;
    ActingIs(c, a, inp, 0);
    forall i | 0 <= i < |Acting(a, inp).move.joints|
      ensures Acting(a, inp).move.joints[i].velMax > 0.0
    {
      ActingIs(c, a, inp, i);
    }
  }

  /** The reading lets the step go on, and the watchdog of the recovery does not end it. */
  predicate GetsToAct(c: Config, a: Arm, inp: StepInput) {
    ReadPhase(a, inp).Go? && CheckTimeout(c, PreparePhase(ReadPhase(a, inp).arm, inp), inp).Go?
  }

  lemma StepIs(c: Config, a: Arm, inp: StepInput)
    ensures var r := ActPhase(c, Acting(a, inp), inp); var s := Step(c, a, inp).arm;
      if GetsToAct(c, a, inp) then s == if r.Go? then FinishPhase(c, r.arm, inp).arm else r.arm
      else if ReadPhase(a, inp).Go? then s.move == PreparePhase(ReadPhase(a, inp).arm, inp).move
      else s == ReadPhase(a, inp).arm
  {
    hide ReadPhase, PreparePhase, ProgressPhase, ActPhase, FinishPhase, MarkCompleted;
    var p := PreparePhase(ReadPhase(a, inp).arm, inp);
    MarkKeepsJoints(p.(recovery := p.recovery.(state := TimedOut)));
  }

  /** This step starts the slew over from the pose without a command, at some point. */
  predicate Restarts(c: Config, a: Arm, inp: StepInput) {
    && ReadPhase(a, inp).Go?
    && (Waits(a) || (GetsToAct(c, a, inp) && (StartsOver(c, Acting(a, inp), inp) || RestartsAfterCommand(c, a, inp))))
  }

  /** The command of this step to joint `i` starts from its pose: the slew was started over before
      it, the pose has crossed home, or it is the loop that holds a finished arm. */
  predicate CommandsFromPose(a: Arm, inp: StepInput, i: nat)
    requires i < |Acting(a, inp).move.joints|
  {
    Waits(a) || ActsFromPose(Acting(a, inp), i)
  }

  /** The slew is restarted after the commands of this step: the start-up move ends, or a hold takes
      effect. */
  predicate RestartsAfterCommand(c: Config, a: Arm, inp: StepInput) {
    var b := Acting(a, inp);
    || StartupEnds(c, b, inp)
    || (ActPhase(c, b, inp).Go? && FinishHolds(c, ActPhase(c, b, inp).arm, inp))
  }

  lemma TimelyStep(c: Config, a: Arm, inp: StepInput, i: nat)
    requires i < |a.move.joints| && Valid(c, a) && GetsToAct(c, a, inp)
    ensures ActedAt(ReadPhase(a, inp).arm, Step(c, a, inp).arm, i, Restarts(c, a, inp),
                    Waits(a) || ActsFromPose(Acting(a, inp), i), RestartsAfterCommand(c, a, inp), Reach(c, a, inp, i))
  {
    hide ReadPhase, Acting, Step, ActPhase, FinishPhase, Acted, Still, StartsOver, ActsFromPose, Reach, ActReach,
         StartupEnds, FinishHolds, Waits, GetsToAct, Valid;
    var r, b := ReadPhase(a, inp).arm, Acting(a, inp);
    ActingIs(c, a, inp, i);
    ReadIs(a, inp, i);
    ActingIsValid(c, a, inp);
    StepIs(c, a, inp);
    ReadGoes(c, a, inp);
    ActExactly(c, b, inp, i);
    IsFollower(c, a);
    var d := ActPhase(c, b, inp).arm;
    var reach := Reach(c, a, inp, i);
    Widen(b, d, i, StartsOver(c, b, inp), ActsFromPose(b, i), StartupEnds(c, b, inp), ActReach(c, b, inp, i), reach);
    StillThen(r, b, d, i, Waits(a), StartsOver(c, b, inp), ActsFromPose(b, i), StartupEnds(c, b, inp), reach);
    if ActPhase(c, b, inp).Go? {
      FinishStill(c, d, inp, i);
      ThenStill(r, d, FinishPhase(c, d, inp).arm, i, Waits(a) || StartsOver(c, b, inp), Waits(a) || ActsFromPose(b, i),
                StartupEnds(c, b, inp), FinishHolds(c, d, inp), reach);
    }
    Regroup(r, Step(c, a, inp).arm, i, Waits(a) || StartsOver(c, b, inp), Restarts(c, a, inp),
            Waits(a) || ActsFromPose(b, i), RestartsAfterCommand(c, a, inp), reach);
  }

  lemma ReadGoes(c: Config, a: Arm, inp: StepInput)
    requires GetsToAct(c, a, inp)
    ensures ReadPhase(a, inp).Go?
  {
  }

  lemma Regroup(a: Arm, b: Arm, i: nat, before: bool, all: bool, fromPose: bool, after: bool, reach: real)
    requires ActedAt(a, b, i, before, fromPose, after, reach) && (before || after) == (all || after)
    ensures ActedAt(a, b, i, all, fromPose, after, reach)
  {
  }

  /** One step of the arm, seen from joint `i`. */
  lemma StepExactly(c: Config, a: Arm, inp: StepInput, i: nat)
    requires i < |a.move.joints| && Valid(c, a)
    ensures |Step(c, a, inp).arm.move.joints| == |Acting(a, inp).move.joints| == |a.move.joints|
    ensures var m, k := Measured(a.move.joints[i], inp.poses(i)), Step(c, a, inp).arm.move.joints[i];
      || Still(m, k, Restarts(c, a, inp))
      || (GetsToAct(c, a, inp)
          && Sent(m, k, CommandsFromPose(a, inp, i), RestartsAfterCommand(c, a, inp), Reach(c, a, inp, i)))
  {
    hide ReadPhase, Acting, Step, ActsFromPose, Reach, PreparePhase, GetsToAct, RestartsAfterCommand;
    var r := ReadPhase(a, inp).arm;
    ReadIs(a, inp, i);
    ActingIs(c, a, inp, i);
    StepIs(c, a, inp);
    PrepareStill(r, inp, i);
    if GetsToAct(c, a, inp) {
      ReadGoes(c, a, inp);
      TimelyStep(c, a, inp, i);
    }
  }

  lemma TurnIs(c: Config, n: Node, inp: NodeInput)
    ensures n.arm.topic.running ==> Turn(c, n, inp).arm.move.joints == Step(c, n.arm, inp.step).arm.move.joints
    ensures !n.arm.topic.running ==> Turn(c, n, inp) == n
  {
    hide Step, EffectorStep;
  }
}
