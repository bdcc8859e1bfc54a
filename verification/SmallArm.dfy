/** A small follower arm for examples: one joint with servo 1, and turns in which everything succeeds
    unless said otherwise. */
module SmallArm {
  import opened Wrappers
  import opened Control
  import opened Reals
  import opened ReadyMove
  import opened Device
  import opened ControlNode
  import opened JointStep
  import ReadTriage
  import Slew

  const ATREST := Command(Idle, 0, 0, false)

  /** One joint that has never moved; `home` is its ready position. */
  function Unmoved(home: real): Joint {
    Joint(1, home, 0.05, 1.0, -10.0, 10.0, 0.0, 0.0, 0.0, 0.0, 0.0, 0, false, 0.0, 0, {0.0}, {0.0}, true)
  }

  function Settings(skipHome: bool): Config { Config(Follower, skipHome, false, 0.001, 0.001, 0.001, 0, 100) }

  function AtStart(home: real, command: Command): Node {
    Node(Arm(Move([Unmoved(home)], Progress(false, 0, 0, 0, 0), {}), false, command,
             Recovery(NoRecovery, false, false, 0), Topic(true, false, 0, 0, []), None, false, None), false, 0)
  }

  /** A turn in which the joint is measured at `pose`, if at all, and the servos in `failed` are out
      of use after the reading; `code` answers the commands, `sec` is the time of the turn, and the
      target is sent directly. */
  function Input(pose: Option<real>, failed: set<int>, code: ReturnCode, messages: seq<Message>, target: real,
                 sec: real): NodeInput
  {
    var there := (i: nat) => pose;
    var answer := (i: nat) => code;
    NodeInput(
      StepInput(there, ReadTriage.Verdict(Success, failed), true, true, true, 0, 0, 0, 0, sec, sec, sec, Success,
                answer, (i: nat) => false, (i: nat) => Safety(false, None), false, Success, Success, Success, Success,
                messages, None, Some((i: nat) => target), Success, false,
                EffectorInput(there, ReadTriage.Verdict(Success, {}), answer, Success, Success)), 1)
  }

  /** The arm tracks; its only joint is `j`. */
  predicate OnTrack(a: Arm, j: Joint, clock: real) {
    && a.ready && a.command == ATREST && a.recovery.state.NoRecovery? && !a.recovery.slow
    && a.topic.running && !a.floating && a.effector.None? && a.slewClock == Some(clock) && a.move.joints == [j]
  }

  predicate Tracking(n: Node, j: Joint, clock: real) { OnTrack(n.arm, j, clock) }

  lemma MeasuredAgain(j: Joint)
    requires j.pos in j.anchors && j.pos in j.since && j.seen
    ensures Sensed(j, Some(j.pos), false) == j
  {
    assert j.anchors + {j.pos} == j.anchors && j.since + {j.pos} == j.since;
  }

  // ----- one tick -----

  /** Where a tick of length `dt` takes a joint of speed 1. */
  function OneStep(prev: real, goal: real, dt: real): real {
    if goal - prev >= dt then prev + dt else if goal - prev <= -dt then prev - dt else goal
  }

  lemma TowardGoal(prev: real, goal: real, scale: real, dt: real)
    requires scale * Abs(goal - prev) == dt && dt > 0.0
    ensures Slew.Toward(prev, goal, scale) == if goal > prev then prev + dt else prev - dt
  {
    if goal <= prev {
      assert scale * (goal - prev) == -(scale * (prev - goal));
    }
  }

  lemma OneTick(prev: real, goal: real, dt: real)
    requires dt > 0.0 && (goal == prev || Abs(goal - prev) >= dt)
    ensures Slew.Tick([prev], [goal], [1.0], dt) == [OneStep(prev, goal, dt)]
  {
    hide Slew.Toward;
    var d := Abs(goal - prev);
    var scale := Slew.ScaleUpTo([prev], [goal], [1.0], dt, 1);
    assert Slew.ScaleUpTo([prev], [goal], [1.0], dt, 0) == 1.0;
    assert Slew.Tick([prev], [goal], [1.0], dt) == [Slew.Toward(prev, goal, scale)];
    if goal == prev {
      NoWay(prev, goal, scale);
    } else {
      DivMul(dt, d);
      MulDiv(1.0, d);
      DivMono(dt, d, d);
      assert scale == dt / d;
      TowardGoal(prev, goal, scale, dt);
    }
  }

  lemma NoWay(prev: real, goal: real, scale: real)
    requires goal == prev
    ensures Slew.Toward(prev, goal, scale) == goal
  {
  }

  lemma Ticks(c: Config, a: Arm, inp: StepInput, j: Joint, dt: real)
    requires c == Settings(true) || c == Settings(false)
    requires a.move.joints == [j] && j.velMax == 1.0 && !a.floating && dt > 0.0
    requires inp.codes(0).Success? && SlewTime(c, a, inp) == dt
    requires var goal := SafeGoal(j, inp.safety(0)); goal == j.prev || Abs(goal - j.prev) >= dt
    ensures OperateAsFollower(c, a, inp)
      == Go(a.(move := a.move.(joints := [Commanded(j, OneStep(j.prev, SafeGoal(j, inp.safety(0)), dt))]),
               slewClock := Some(inp.slewSec)))
  {
    hide Slew.Tick, SlewTime, OneStep;
    OneTick(j.prev, SafeGoal(j, inp.safety(0)), dt);
    assert Previous([j]) == [j.prev] && Goals([j], inp.safety) == [SafeGoal(j, inp.safety(0))] && Speeds([j]) == [1.0];
    assert Attempts(inp.codes, 1) == 1 && LoopCode(inp.codes, 1).Success?;
  }

  /** Nothing in the input stands in the way of the step. */
  predicate Smooth(inp: StepInput) {
    && inp.read.code.Success? && inp.feedForward.Success? && inp.write.Success? && inp.observe.Success?
    && inp.codes(0).Success? && !inp.stalled(0) && inp.live.None? && inp.holdMode.Success? && inp.normalMode
    && inp.commandMode
  }

  lemma ProgressRest(a: Arm, inp: StepInput)
    ensures var b := ProgressPhase(a, inp);
      && b.floating == a.floating && b.effector == a.effector && b.topic.running == a.topic.running
      && b.topic.listening == a.topic.listening
  {
  }

  /** The arm is about to tick: its goal is where it is, or at least one tick away. */
  predicate AboutToTick(a: Arm, inp: StepInput, j: Joint, clock: real) {
    && OnTrack(a, j, clock) && Smooth(inp) && j.velMax == 1.0 && inp.slewSec - clock > 0.000000001
    && (SafeGoal(j, inp.safety(0)) == j.prev || Abs(SafeGoal(j, inp.safety(0)) - j.prev) >= inp.slewSec - clock)
  }

  /** The joint after the tick. */
  function Ticked(j: Joint, inp: StepInput, clock: real): Joint {
    Commanded(Measured(j, inp.poses(0)), OneStep(j.prev, SafeGoal(j, inp.safety(0)), inp.slewSec - clock))
  }

  /** A tracking arm up to the end of its tick. */
  lemma TrackingActs(c: Config, a: Arm, inp: StepInput, j: Joint, clock: real)
    requires c == Settings(true) || c == Settings(false)
    requires AboutToTick(a, inp, j, clock)
    ensures var r := ActPhase(c, Acting(a, inp), inp);
      && r.Go? && OnTrack(r.arm, Ticked(j, inp, clock), inp.slewSec) && r.arm.move.failed == inp.read.failed
      && Step(c, a, inp) == FinishPhase(c, r.arm, inp)
  {
    hide ProgressPhase, OneStep, SafeGoal;
    var k := Measured(j, inp.poses(0));
    var a0 := ReadPhase(a, inp).arm;
    assert a0.move.joints == [k];
    assert PreparePhase(a0, inp) == a0;
    ProgressStill(a0, inp);
    ProgressRest(a0, inp);
    var b := Acting(a, inp);
    SameGoal(j, inp.poses(0), inp.safety(0));
    Ticks(c, b, inp, k, inp.slewSec - clock);
    hide OperateAsFollower;
    assert ActPhase(c, b, inp) == OperateAsFollower(c, b, inp);
  }

  lemma SameGoal(j: Joint, p: Option<real>, s: Safety)
    ensures SafeGoal(Measured(j, p), s) == SafeGoal(j, s) && Measured(j, p).prev == j.prev
    ensures Measured(j, p).velMax == j.velMax
  {
  }

  // ----- the end of the step -----

  lemma NoMessages(c: Config, a: Arm, inp: StepInput, j: Joint, clock: real)
    requires OnTrack(a, j, clock) && Smooth(inp) && c.role.Follower?
    ensures var b := PublishObservation(c, a, inp); b.Go? && OnTrack(b.arm, j, clock)
    ensures inp.messages == [] ==>
      DispatchAll(c, PublishObservation(c, a, inp).arm, inp, |inp.messages|) == PublishObservation(c, a, inp).arm
  {
  }

  /** A step without messages takes the target that is sent. */
  lemma PlainFinish(c: Config, a: Arm, inp: StepInput, j: Joint, clock: real)
    requires OnTrack(a, j, clock) && Smooth(inp) && c.role.Follower? && inp.messages == [] && !inp.silent
    requires inp.direct.Some?
    ensures var r := FinishPhase(c, a, inp);
      && r.code.Success? && OnTrack(r.arm, j.(tele := inp.direct.value(0)), clock) && r.arm.move.failed == a.move.failed
  {
    hide PublishObservation, DispatchAll;
    NoMessages(c, a, inp, j, clock);
    PublishKeepsSet(c, a, inp);
    assert AllAimed([j], inp.direct.value) == [j.(tele := inp.direct.value(0))];
  }

  lemma PublishKeepsSet(c: Config, a: Arm, inp: StepInput)
    ensures PublishObservation(c, a, inp).arm.move == a.move
  {
  }

  /** A hold starts the slew over from the pose, and then the target is taken. */
  lemma HoldFinish(c: Config, a: Arm, inp: StepInput, j: Joint, clock: real)
    requires OnTrack(a, j, clock) && Smooth(inp) && c.role.Follower? && inp.messages == [Hold] && !inp.silent
    requires inp.direct.Some?
    ensures var r := FinishPhase(c, a, inp);
      && r.code.Success? && r.arm.move.failed == a.move.failed
      && OnTrack(r.arm, Rebased(j).(tele := inp.direct.value(0)), inp.holdSec)
  {
    hide PublishObservation;
    NoMessages(c, a, inp, j, clock);
    PublishKeepsSet(c, a, inp);
    var b := PublishObservation(c, a, inp).arm;
    assert DispatchAll(c, b, inp, 0) == b && DispatchAll(c, b, inp, 1) == HoldNow(b, inp);
    assert HoldNow(b, inp).move.joints == [Cleared(j)];
    assert AllAimed([Cleared(j)], inp.direct.value) == [Rebased(j).(tele := inp.direct.value(0))];
  }

  /** The client's silence does so after the target was taken. */
  lemma SilentFinish(c: Config, a: Arm, inp: StepInput, j: Joint, clock: real)
    requires OnTrack(a, j, clock) && Smooth(inp) && c.role.Follower? && inp.messages == [] && inp.silent
    requires inp.direct.Some?
    ensures var r := FinishPhase(c, a, inp);
      && r.code.Success? && r.arm.move.failed == a.move.failed && OnTrack(r.arm, Cleared(j), inp.holdSec)
  {
    hide PublishObservation, DispatchAll;
    NoMessages(c, a, inp, j, clock);
    PublishKeepsSet(c, a, inp);
    assert AllAimed([j], inp.direct.value) == [j.(tele := inp.direct.value(0))];
    assert AllCleared([j.(tele := inp.direct.value(0))]) == [Cleared(j)];
  }

  // ----- turns -----

  lemma AnnounceKeeps(c: Config, n: Node)
    ensures var a, b := n.arm, Announce(c, n).arm; b == a.(topic := b.topic) && b.topic.running == a.topic.running
  {
  }

  lemma TurnIsStep(c: Config, n: Node, inp: NodeInput)
    requires n.arm.topic.running
    requires Step(c, n.arm, inp.step).code.Success? && Step(c, n.arm, inp.step).arm.effector.None?
    ensures var a, b := Step(c, n.arm, inp.step).arm, Turn(c, n, inp).arm;
      b == a.(topic := b.topic) && b.topic.running == a.topic.running
  {
    hide Step, Announce;
    AnnounceKeeps(c, n.(arm := Supervised(c, n.arm, inp)));
  }

  /** A turn of a tracking arm: its tick, and then what the end of the step makes of it. */
  lemma PlainTurn(c: Config, n: Node, inp: NodeInput, j: Joint, clock: real)
    requires c == Settings(true) || c == Settings(false)
    requires AboutToTick(n.arm, inp.step, j, clock)
    requires inp.step.messages == [] && !inp.step.silent && inp.step.direct.Some?
    ensures var k := Ticked(j, inp.step, clock);
      Tracking(Turn(c, n, inp), k.(tele := inp.step.direct.value(0)), inp.step.slewSec)
    ensures Turn(c, n, inp).arm.move.failed == inp.step.read.failed
  {
    hide Step, Acting, ActPhase, FinishPhase, Ticked, SafeGoal, Turn;
    TrackingActs(c, n.arm, inp.step, j, clock);
    var k := Ticked(j, inp.step, clock);
    PlainFinish(c, ActPhase(c, Acting(n.arm, inp.step), inp.step).arm, inp.step, k, inp.step.slewSec);
    TurnIsStep(c, n, inp);
  }

  lemma HoldTurn(c: Config, n: Node, inp: NodeInput, j: Joint, clock: real)
    requires c == Settings(true) || c == Settings(false)
    requires AboutToTick(n.arm, inp.step, j, clock)
    requires inp.step.messages == [Hold] && !inp.step.silent && inp.step.direct.Some?
    ensures var k := Ticked(j, inp.step, clock);
      Tracking(Turn(c, n, inp), Rebased(k).(tele := inp.step.direct.value(0)), inp.step.holdSec)
    ensures Turn(c, n, inp).arm.move.failed == inp.step.read.failed
  {
    hide Step, Acting, ActPhase, FinishPhase, Ticked, SafeGoal, Turn;
    TrackingActs(c, n.arm, inp.step, j, clock);
    var k := Ticked(j, inp.step, clock);
    HoldFinish(c, ActPhase(c, Acting(n.arm, inp.step), inp.step).arm, inp.step, k, inp.step.slewSec);
    TurnIsStep(c, n, inp);
  }

  lemma SilentTurn(c: Config, n: Node, inp: NodeInput, j: Joint, clock: real)
    requires c == Settings(true) || c == Settings(false)
    requires AboutToTick(n.arm, inp.step, j, clock)
    requires inp.step.messages == [] && inp.step.silent && inp.step.direct.Some?
    ensures var k := Ticked(j, inp.step, clock);
      Tracking(Turn(c, n, inp), Cleared(k), inp.step.holdSec)
  {
    hide Step, Acting, ActPhase, FinishPhase, Ticked, SafeGoal, Turn;
    TrackingActs(c, n.arm, inp.step, j, clock);
    var k := Ticked(j, inp.step, clock);
    SilentFinish(c, ActPhase(c, Acting(n.arm, inp.step), inp.step).arm, inp.step, k, inp.step.slewSec);
    TurnIsStep(c, n, inp);
  }

  /** First the arm starts where it is, and a target arrives. */
  lemma StartsWhereItIs(inp: NodeInput)
    requires Smooth(inp.step) && inp.step.messages == [] && !inp.step.silent && inp.step.direct.Some?
    requires inp.step.poses(0) == None || inp.step.poses(0) == Some(0.0)
    ensures var m := Turn(Settings(true), AtStart(0.0, ATREST), inp);
      && Tracking(m, Unmoved(0.0).(tele := inp.step.direct.value(0), seen := inp.step.poses(0).Some?),
                  inp.step.rebaseSec)
      && m.arm.move.failed == inp.step.read.failed
  {
    var c, n := Settings(true), AtStart(0.0, ATREST);
    var k := Unmoved(0.0).(seen := inp.step.poses(0).Some?);
    MeasuredAgain(Unmoved(0.0));
    var a0 := ReadPhase(n.arm, inp.step).arm;
    assert a0.move.joints == [k];
    assert PreparePhase(a0, inp.step) == a0;
    var b := Acting(n.arm, inp.step);
    ProgressStill(a0, inp.step);
    ProgressRest(a0, inp.step);
    var d := ActPhase(c, b, inp.step);
    assert AllCleared([k]) == [k] && AllRebased([k]) == [k];
    assert d.Go? && OnTrack(d.arm, k, inp.step.rebaseSec);
    hide FinishPhase, ActPhase, Turn;
    PlainFinish(c, d.arm, inp.step, k, inp.step.rebaseSec);
    TurnIsStep(c, n, inp);
  }
}
