/** Runs from start-up in which an arm is commanded away from its history, or from its rest: the
    causes that the theorems of `NoJump`, `StrictHistory` and `Rest` name. */
module Jumps {
  import opened Wrappers
  import opened Control
  import opened Reals
  import opened ReadyMove
  import opened Device
  import opened ControlNode
  import opened JointStep
  import opened NoJump
  import opened SmallArm
  import FailedJoints
  import ReadTriage
  import Rest

  /** A run that starts in the history of its only joint and commands it in turn `k`, out of reach of
      everything that belongs to the history. */
  ghost predicate JumpsAt(c: Config, n: Node, ins: nat -> NodeInput, k: nat, strict: bool) {
    && Valid(c, n.arm) && |n.arm.move.joints| == 1 && Follows(n.arm.move.joints[0], strict)
    && !NearAt(c, n, ins, 0, k, strict)
    && |Run(c, n, ins, k).arm.move.joints| == |Run(c, n, ins, k + 1).arm.move.joints| == 1
  }

  lemma FarFrom(place: real, c: real, reach: real)
    requires Abs(c - place) > reach
    ensures !Near({place}, c, reach)
  {
  }

  function First(): Node { AtStart(0.0, ATREST) }

  lemma FirstIsValid()
    ensures Valid(Settings(true), First().arm) && |First().arm.move.joints| == 1
    ensures Follows(First().arm.move.joints[0], true) && Follows(First().arm.move.joints[0], false)
  {
  }

  lemma ThreeTurns(ins: nat -> NodeInput)
    ensures var c := Settings(true); var n1 := Turn(c, First(), ins(0)); var n2 := Turn(c, n1, ins(1));
      && Run(c, First(), ins, 1) == n1 && Run(c, First(), ins, 2) == n2
      && Run(c, First(), ins, 3) == Turn(c, n2, ins(2))
  {
    hide Turn;
    var c := Settings(true);
    RunAtStart(c, First(), ins);
    RunTurn(c, First(), ins, 1);
    RunTurn(c, First(), ins, 2);
    RunTurn(c, First(), ins, 3);
  }

  // ----- the last tick of such a run -----

  /** A joint whose history is its last command, `place`, but whose slew starts from 0. */
  predicate Misplaced(j: Joint, place: real, strict: bool) {
    && j.prev == 0.0 && j.velMax == 1.0 && History(j, strict) == {place} && place > 0.0
    && (j.tele == -1.0 || (j.tele == 0.0 && place > 0.01))
  }

  lemma TrackingReach(c: Config, a: Arm, inp: StepInput, j: Joint, clock: real)
    requires c == Settings(true) || c == Settings(false)
    requires OnTrack(a, j, clock) && j.velMax == 1.0 && inp.slewSec - clock == 0.01
    ensures Reach(c, a, inp, 0) == 0.01
  {
    assert Covers(1.0, 0.01) == 0.01;
  }

  /** It is commanded to 0, or beyond, one tick of a hundredth of a second later. */
  lemma TickJumps(c: Config, n: Node, inp: NodeInput, j: Joint, clock: real, place: real, strict: bool)
    requires c == Settings(true) || c == Settings(false)
    requires Tracking(n, j, clock) && Misplaced(j, place, strict) && inp.step.slewSec - clock == 0.01
    requires Smooth(inp.step) && inp.step.messages == [] && !inp.step.silent && inp.step.direct.Some?
    requires inp.step.safety(0) == Safety(false, None)
    requires inp.step.poses(0) == None || inp.step.poses(0) == Some(place)
    ensures var m := Turn(c, n, inp);
      && |m.arm.move.joints| == 1 == |n.arm.move.joints|
      && m.arm.move.joints[0].commands == n.arm.move.joints[0].commands + 1
      && !Near(History(Measured(n.arm.move.joints[0], inp.step.poses(0)), strict), m.arm.move.joints[0].sent,
               Reach(c, n.arm, inp.step, 0))
  {
    hide Turn, Near, Reach;
    PlainTurn(c, n, inp, j, clock);
    TrackingReach(c, n.arm, inp.step, j, clock);
    assert {place} + {place} == {place};
    assert History(Measured(j, inp.step.poses(0)), strict) == {place};
    FarFrom(place, OneStep(0.0, j.tele, 0.01), 0.01);
  }

  // ----- restarts after the command of the same step -----

  /** A turn in which the joint is measured. */
  function Seeing(pose: real, messages: seq<Message>, target: real, sec: real): NodeInput {
    Input(Some(pose), {}, Success, messages, target, sec)
  }

  function Silenced(inp: NodeInput): NodeInput { inp.(step := inp.step.(silent := true)) }

  /** The joint is commanded from 0 to 1 in one second, and measured at 0 before that. */
  function Stepped(): Joint { Commanded(Unmoved(0.0).(tele := 1.0), 1.0) }

  function HoldingInput(k: nat): NodeInput {
    if k == 0 then Seeing(0.0, [], 1.0, 0.0)
    else if k == 1 then Seeing(0.0, [Hold], 0.0, 1.0)
    else Seeing(1.0, [], 0.0, 1.01)
  }

  function SilencedInput(k: nat): NodeInput {
    if k == 0 then Seeing(0.0, [], 1.0, 0.0)
    else if k == 1 then Silenced(Seeing(0.0, [], 0.0, 1.0))
    else Seeing(1.0, [], 0.0, 1.01)
  }

  /** A hold at the end of a step starts the slew over from the pose measured before the command of
      that step; the next command is then too far from everything the joint has been told or seen
      since. */
  lemma HoldJumpsStrictly()
    ensures JumpsAt(Settings(true), First(), HoldingInput, 2, true)
    ensures forall k: nat :: HoldingInput(k).step.poses(0).Some?
  {
    hide Turn, Near, Reach;
    var ins := HoldingInput;
    ThreeTurns(ins);
    FirstIsValid();
    hide Run;
    var n1 := Turn(Settings(true), First(), ins(0));
    StartsWhereItIs(ins(0));
    var j := Unmoved(0.0).(tele := 1.0);
    assert Measured(j, Some(0.0)) == j by {
      MeasuredAgain(j);
    }
    HoldTurn(Settings(true), n1, ins(1), j, 0.0);
    var k := Rebased(Stepped()).(tele := 0.0);
    TickJumps(Settings(true), Turn(Settings(true), n1, ins(1)), ins(2), k, 1.0, 1.0, true);
  }

  /** So does the hold when the client falls silent. */
  lemma SilenceJumpsStrictly()
    ensures JumpsAt(Settings(true), First(), SilencedInput, 2, true)
    ensures forall k: nat :: SilencedInput(k).step.poses(0).Some?
  {
    hide Turn, Near, Reach;
    var ins := SilencedInput;
    ThreeTurns(ins);
    FirstIsValid();
    hide Run;
    var n1 := Turn(Settings(true), First(), ins(0));
    StartsWhereItIs(ins(0));
    var j := Unmoved(0.0).(tele := 1.0);
    assert Measured(j, Some(0.0)) == j by {
      MeasuredAgain(j);
    }
    SilentTurn(Settings(true), n1, ins(1), j, 0.0);
    TickJumps(Settings(true), Turn(Settings(true), n1, ins(1)), ins(2), Cleared(Stepped()), 1.0, 1.0, true);
  }

  // ----- a joint that is not read -----

  /** The servo is silent when the arm starts, and the bus is fine from then on. */
  function Readings(k: nat): ReadTriage.Reading {
    ReadTriage.Reading(if k == 0 then Other(-6) else Success, if k == 0 then {1} else {}, {}, [Success],
                       (i: nat) => Some(0.0))
  }

  /** A turn in which the joint, whose servo has failed, is not asked. */
  function Blind(messages: seq<Message>, target: real, sec: real): NodeInput {
    Input(None, {1}, Success, messages, target, sec)
  }

  function BlindHoldInput(k: nat): NodeInput {
    if k == 0 then Blind([], 1.0, 0.0) else if k == 1 then Blind([Hold], 0.0, 1.0) else Blind([], 0.0, 1.01)
  }

  lemma JudgedBlind(a: Arm, k: nat, inp: StepInput)
    requires |a.move.joints| == 1 && a.move.joints[0].servo == 1 && inp.read == ReadTriage.Verdict(Success, {1})
    requires inp.poses(0) == None
    requires if k == 0 then !a.ready && a.move.failed == {} else a.move.failed == {1}
    ensures FailedJoints.ReadBy(a, inp, Readings(k))
  {
    var servos, r := FailedJoints.Servos(a.move.joints), Readings(k);
    assert servos == [1];
    if k == 0 {
      assert ReadTriage.Dead(r) == {1};
      assert ReadTriage.UnreachableUpTo(servos, {} + {1}, r.codes, 0) == {};
      assert ReadTriage.UnreachableUpTo(servos, {} + {1}, r.codes, 1) == {};
      assert a.move.failed + ({1} + {}) == {1};
    } else {
      assert ReadTriage.Dead(r) == {};
      assert {1} + {} == {1};
      assert ReadTriage.UnreachableUpTo(servos, {1}, r.codes, 0) == {};
      assert ReadTriage.UnreachableUpTo(servos, {1}, r.codes, 1) == {};
      assert ReadTriage.Excluded(servos[0], {1});
    }
  }

  /** The joint, commanded from 0 to 1 and never measured. */
  function SteppedBlind(): Joint { Commanded(Unmoved(0.0).(tele := 1.0, seen := false), 1.0) }

  /** A servo that has failed at start-up is not read but commanded.  A hold starts its slew over from
      the pose it had at start-up, and the next command goes back there, however far that is. */
  lemma HoldJumpsUnread()
    ensures JumpsAt(Settings(true), First(), BlindHoldInput, 2, false)
    ensures forall k: nat :: k <= 2 ==>
              FailedJoints.ReadBy(Run(Settings(true), First(), BlindHoldInput, k).arm, BlindHoldInput(k).step,
                                  Readings(k))
  {
    hide Turn, Near, Reach, FailedJoints.ReadBy;
    var c, ins := Settings(true), BlindHoldInput;
    ThreeTurns(ins);
    RunAtStart(c, First(), ins);
    FirstIsValid();
    hide Run;
    var n1 := Turn(c, First(), ins(0));
    StartsWhereItIs(ins(0));
    var j := Unmoved(0.0).(tele := 1.0, seen := false);
    HoldTurn(c, n1, ins(1), j, 0.0);
    var n2 := Turn(c, n1, ins(1));
    TickJumps(c, n2, ins(2), Rebased(SteppedBlind()).(tele := 0.0), 1.0, 1.0, false);
    JudgedBlind(First().arm, 0, ins(0).step);
    JudgedBlind(n1.arm, 1, ins(1).step);
    JudgedBlind(n2.arm, 2, ins(2).step);
  }

  // ----- a request -----

  const ASKED := Command(Pending, 7, 0, false)
  const SERVED := Command(Moving, 0, 7, false)

  function RequestInput(k: nat): NodeInput {
    if k == 0 then Blind([], 1.0, 0.0)
    else if k == 1 then Blind([MoveToReady(7)], 0.0, 1.0)
    else if k == 2 then Blind([], 0.0, 1.01)
    else Blind([], 0.0, 1.02)
  }

  /** The arm between the moves, apart from readiness and command. */
  predicate Between(a: Arm, j: Joint) {
    && a.recovery.state.NoRecovery? && !a.recovery.slow && a.topic.running && !a.floating && a.effector.None?
    && a.move.joints == [j] && a.move.failed == {1}
  }

  /** A request arrives after the tick. */
  lemma IsAsked(n: Node, inp: NodeInput, j: Joint, clock: real)
    requires AboutToTick(n.arm, inp.step, j, clock) && inp.step.messages == [MoveToReady(7)] && !inp.step.silent
    requires inp.step.direct.Some? && inp.step.read == ReadTriage.Verdict(Success, {1})
    ensures var a := Turn(Settings(true), n, inp).arm;
      !a.ready && a.command == ASKED && Between(a, Ticked(j, inp.step, clock))
  {
    hide Acting, ActPhase, Step, Ticked, SafeGoal, PublishObservation;
    var c, k := Settings(true), Ticked(j, inp.step, clock);
    TrackingActs(c, n.arm, inp.step, j, clock);
    var a := ActPhase(c, Acting(n.arm, inp.step), inp.step).arm;
    NoMessages(c, a, inp.step, k, inp.step.slewSec);
    PublishKeepsSet(c, a, inp.step);
    var b := PublishObservation(c, a, inp.step).arm;
    assert DispatchAll(c, b, inp.step, 0) == b && DispatchAll(c, b, inp.step, 1) == RequestMove(b, 7);
    hide Turn;
    TurnIsStep(c, n, inp);
  }

  lemma NobodyMoves(m: Move, step: real, codes: nat -> ReturnCode, j: Joint)
    requires m.joints == [j] && j.servo == 1 && m.failed == {1} && !m.progress.done && m.progress.initCount == 0
    ensures var t := Tick(m, step, codes); t.progress.done && t.failed == {1} && t.joints == [Prepared(j)]
    ensures TickCode(m, step, codes).Success?
  {
    hide Budget;
    var r := Ready(m, step);
    assert r.joints == [Prepared(j)] && Skips(r.joints[0], {1}) && !Responsive(r.joints, {1});
    assert Swept(r.joints, step, {1}) == [Prepared(j)];
    assert FailedMoves(r.joints, {1}, codes, 0) == {};
    assert LastCode(r.joints, {1}, codes, 0).Success?;
  }

  /** The request is taken up: the slew starts over from the old pose, and as the servo has failed
      there is nothing to move. */
  lemma IsServed(n: Node, inp: NodeInput, j: Joint)
    requires !n.arm.ready && n.arm.command == ASKED && Between(n.arm, j) && j.servo == 1 && j.pos == 0.0
    requires Smooth(inp.step) && inp.step.messages == [] && !inp.step.silent && inp.step.poses(0) == None
    requires inp.step.read == ReadTriage.Verdict(Success, {1})
    ensures var a := Turn(Settings(true), n, inp).arm;
      a.ready && a.command == SERVED && Between(a, Prepared(Cleared(Measured(j, None))))
  {
    hide Tick, TickCode, ProgressPhase, Prepared;
    var c, k := Settings(true), Cleared(Measured(j, None));
    var a0 := ReadPhase(n.arm, inp.step).arm;
    assert a0.move.joints == [Measured(j, None)];
    var a1 := PreparePhase(a0, inp.step);
    assert AllCleared([Measured(j, None)]) == [k] && AllRebased([k]) == [k];
    assert a1.move.joints == [k] && !a1.ready && a1.command.state.Moving?;
    ProgressStill(a1, inp.step);
    ProgressRest(a1, inp.step);
    var b := Acting(n.arm, inp.step);
    NobodyMoves(b.move, 0.001, inp.step.codes, k);
    var d := ActPhase(c, b, inp.step);
    assert d.Go? && d.arm.ready && d.arm.command == SERVED && Between(d.arm, Prepared(k));
    hide ActPhase, Acting;
    var e := PublishObservation(c, d.arm, inp.step).arm;
    assert DispatchAll(c, e, inp.step, 0) == e;
    assert Step(c, n.arm, inp.step) == FinishPhase(c, d.arm, inp.step);
    hide Turn, Step;
    TurnIsStep(c, n, inp);
  }

  /** The move is restored, and the tick of the same step sends the joint to the old pose. */
  lemma IsSentBack(n: Node, inp: NodeInput, j: Joint)
    requires n.arm.ready && n.arm.command == SERVED && Between(n.arm, j) && j.pos == 0.0 && j.velMax == 1.0
    requires History(j, false) == {1.0} && j.posMin < 0.0 < j.posMax
    requires Smooth(inp.step) && inp.step.messages == [] && !inp.step.silent && inp.step.poses(0) == None
    requires inp.step.safety(0) == Safety(false, None) && inp.step.rebaseSec == inp.step.slewSec
    requires inp.step.direct.Some?
    ensures var c, m := Settings(true), Turn(Settings(true), n, inp);
      && |m.arm.move.joints| == 1 && m.arm.move.joints[0].commands == j.commands + 1 && m.arm.move.joints[0].sent == 0.0
      && Reach(c, n.arm, inp.step, 0) == 0.001
  {
    hide ProgressPhase, OneStep, SlewTime;
    var c, k := Settings(true), Cleared(Measured(j, None));
    var a0 := ReadPhase(n.arm, inp.step).arm;
    assert a0.move.joints == [Measured(j, None)];
    assert PreparePhase(a0, inp.step) == a0;
    ProgressStill(a0, inp.step);
    ProgressRest(a0, inp.step);
    var b := Acting(n.arm, inp.step);
    var r := Restore(c, b, inp.step);
    assert AllRebased([Measured(j, None)]) == [Rebased(Measured(j, None))];
    assert AllCleared([Rebased(Measured(j, None))]) == [k];
    assert r.move.joints == [k] && !r.floating && r.slewClock == Some(inp.step.slewSec);
    assert SlewTime(c, r, inp.step) == 0.000000001 by {
      NoTime(c, r, inp.step);
    }
    Ticks(c, r, inp.step, k, 0.000000001);
    assert OneStep(0.0, 0.0, 0.000000001) == 0.0 by {
      Nowhere();
    }
    hide OperateAsFollower;
    var d := ActPhase(c, b, inp.step).arm;
    assert d.move.joints == [Commanded(k, 0.0)];
    hide ActPhase, Acting, Turn, Step;
    FinishStill(c, d, inp.step, 0);
    StepIs(c, n.arm, inp.step);
    TurnIs(c, n, inp);
    ShortReach(c, n.arm, inp.step, j);
  }

  lemma NoTime(c: Config, a: Arm, inp: StepInput)
    requires c.frequency > 0 && a.slewClock == Some(inp.slewSec)
    ensures SlewTime(c, a, inp) == 0.000000001
  {
  }

  lemma Nowhere()
    ensures OneStep(0.0, 0.0, 0.000000001) == 0.0
  {
  }

  lemma ShortReach(c: Config, a: Arm, inp: StepInput, j: Joint)
    requires c == Settings(true) && Between(a, j) && j.velMax == 1.0 && a.command == SERVED
    requires inp.rebaseSec == inp.slewSec
    ensures Reach(c, a, inp, 0) == 0.001
  {
    assert Covers(1.0, 0.000000001) == 0.000000001;
  }

  /** Taking up a request, too, starts the slew of an unread joint over from its pose at start-up; when
      the move is restored, a single tick sends the joint there. */
  lemma RequestJumpsUnread()
    ensures JumpsAt(Settings(true), First(), RequestInput, 3, false)
    ensures JumpsAt(Settings(true), First(), RequestInput, 3, true)
    ensures forall k: nat :: k <= 3 ==>
              FailedJoints.ReadBy(Run(Settings(true), First(), RequestInput, k).arm, RequestInput(k).step, Readings(k))
  {
    hide Turn, Near, Reach, FailedJoints.ReadBy;
    var c, ins := Settings(true), RequestInput;
    ThreeTurns(ins);
    RunAtStart(c, First(), ins);
    RunTurn(c, First(), ins, 4);
    FirstIsValid();
    hide Run, OneStep;
    var n1 := Turn(c, First(), ins(0));
    StartsWhereItIs(ins(0));
    var j := Unmoved(0.0).(tele := 1.0, seen := false);
    assert OneStep(0.0, 1.0, 1.0) == 1.0 by {
      WholeSecond();
    }
    IsAsked(n1, ins(1), j, 0.0);
    var n2 := Turn(c, n1, ins(1));
    assert Ticked(j, ins(1).step, 0.0) == SteppedBlind();
    IsServed(n2, ins(2), SteppedBlind());
    var n3 := Turn(c, n2, ins(2));
    var k := Prepared(Cleared(Measured(SteppedBlind(), None)));
    IsSentBack(n3, ins(3), k);
    FarFrom(1.0, 0.0, 0.001);
    JudgedBlind(First().arm, 0, ins(0).step);
    JudgedBlind(n1.arm, 1, ins(1).step);
    JudgedBlind(n2.arm, 2, ins(2).step);
    JudgedBlind(n3.arm, 3, ins(3).step);
  }

  lemma WholeSecond()
    ensures OneStep(0.0, 1.0, 1.0) == 1.0
  {
  }

  // ----- a protection ends the rest -----

  function ProtectedInput(k: nat): NodeInput {
    if k == 0 then Seeing(0.0, [], 0.0, 0.0)
    else
      var inp := Seeing(0.0, [], 0.0, 1.0);
      inp.(step := inp.step.(safety := (i: nat) => Safety(false, Some(1.0))))
  }

  /** An arm at rest is commanded away, although nothing arrives for it, when a protection holds its
      joint where it fell behind. */
  lemma ProtectionEndsRest()
    ensures var c := Settings(true);
      var a, b := Run(c, First(), ProtectedInput, 1).arm, Run(c, First(), ProtectedInput, 2).arm;
      && Rest.AtRest(c, a, 0) && |b.move.joints| == 1
      && b.move.joints[0].commands == a.move.joints[0].commands + 1 && b.move.joints[0].sent != a.move.joints[0].tele
  {
    hide Turn;
    var ins := ProtectedInput;
    ThreeTurns(ins);
    hide Run;
    StartsWhereItIs(ins(0));
    PlainTurn(Settings(true), Turn(Settings(true), First(), ins(0)), ins(1), Unmoved(0.0), 0.0);
  }
}
