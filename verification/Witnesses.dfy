/** Runs from start-up that show what else the theorems about the device leave out: the end of a
    start-up move breaks the strict no-jump bound, a completion is not recorded, a failed joint is
    commanded, and a move ends short of home. */
module Witnesses {
  import opened Wrappers
  import opened Control
  import opened ReadyMove
  import opened Device
  import opened ControlNode
  import opened JointStep
  import opened NoJump
  import opened SmallArm
  import opened Jumps
  import FailedJoints
  import HealthyMove
  import ReadTriage

  // ----- the ready move of a joint that does not move -----

  /** The joint while its move is under way: its command has reached home, its pose has not. */
  function Waiting(k: nat): Joint {
    Unmoved(0.001).(target := 0.001, prev := 0.001, sent := 0.001, commands := k, anchors := {0.001, 0.0},
                   since := {0.001})
  }

  /** The move after `k` of its calls. */
  function Homing(k: nat): Move {
    Move([Waiting(k)], Progress(false, k, k, 1500, k), {})
  }

  function Pose0(): Option<real> { Some(0.0) }

  function Seen(m: Move): Move
    requires |m.joints| == 1
  {
    m.(joints := [Sensed(m.joints[0], Pose0(), false)])
  }

  lemma FirstCall(m: Move, codes: nat -> ReturnCode)
    requires m.joints == [Unmoved(0.001)] && !m.progress.done && m.progress.initCount == 0 && m.failed == {}
    requires codes(0).Success?
    ensures Tick(m, 0.001, codes) == Homing(1) && TickCode(m, 0.001, codes).Success?
  {
    var r := Ready(m, 0.001);
    assert MaxDisplacement(m.joints, 1) == 0.001 by {
      assert MaxDisplacement(m.joints, 0) == 0.0;
    }
    assert Budget(0.001, 0.001) == 1500;
    assert r.joints == [Prepared(Unmoved(0.001))];
    assert !Skips(r.joints[0], {});
    assert Swept(r.joints, 0.001, {}) == [Waiting(1)];
    assert FailedMoves(r.joints, {}, codes, 0) == {};
    assert LastCode(r.joints, {}, codes, 1) == codes(0);
  }

  lemma LaterCall(k: nat, codes: nat -> ReturnCode)
    requires 1 <= k <= 30
    ensures var t := Tick(Seen(Homing(k)), 0.001, codes);
      && t.joints == [Waiting(k + 1)] && TickCode(Seen(Homing(k)), 0.001, codes) == codes(0)
      && t.progress == Progress(k == 30, if k == 30 then 1 else k + 1, k + 1, 1500, k + 1)
      && (codes(0).Success? ==> t.failed == {})
  {
    var m := Seen(Homing(k));
    var j := m.joints[0];
    assert j.anchors == {0.001, 0.0} && !Skips(j, {});
    assert Swept(m.joints, 0.001, {}) == [Waiting(k + 1)];
    assert !Blocks(j);
    assert FailedMoves(m.joints, {}, codes, 0) == {};
    assert LastCode(m.joints, {}, codes, 1) == codes(0);
  }

  /** The node after `k` turns of the move. */
  predicate OnTheWay(n: Node, k: nat, command: Command) {
    var a := n.arm;
    && !a.ready && a.command == command && a.recovery.state.NoRecovery? && !a.recovery.slow
    && a.topic.running && !a.floating && a.effector.None? && a.move == Homing(k)
  }

  const MOVING := Command(Moving, 7, 0, false)

  function WaitInput(): NodeInput { Seeing(0.0, [], 0.0, 0.0) }

  /** The end of a step on the way: only a start-up move takes the direct target, which is 0. */
  lemma FinishOnTheWay(c: Config, a: Arm)
    requires c.role.Follower? && !InRecovery(a) && (a.command == ATREST || a.command == MOVING)
    requires |a.move.joints| == 1 && a.move.joints[0].tele == 0.0 && !a.ready
    ensures var r := FinishPhase(c, a, WaitInput().step);
      && r.code.Success? && r.arm.move == a.move && r.arm.command == a.command && !r.arm.ready
      && r.arm.recovery.state == a.recovery.state && r.arm.recovery.slow == a.recovery.slow
      && r.arm.topic.running == a.topic.running && r.arm.floating == a.floating && r.arm.effector == a.effector
  {
    var inp := WaitInput().step;
    var b := PublishObservation(c, a, inp).arm;
    assert DispatchAll(c, b, inp, 0) == b;
    assert AllAimed(a.move.joints, (i: nat) => 0.0) == a.move.joints;
    assert TakeTargets(c, b, inp).move.joints == a.move.joints;
  }

  lemma ActOnTheWay(c: Config, a: Arm, inp: StepInput)
    requires c == Settings(false) && !a.ready && a.recovery.state.NoRecovery? && !a.recovery.slow && a.effector.None?
    requires !a.move.progress.done && inp.feedForward.Success?
    ensures var m := Tick(a.move, 0.001, inp.codes); var code := TickCode(a.move, 0.001, inp.codes);
      var b := a.(move := m, ready := m.progress.done);
      ActPhase(c, a, inp)
        == if !code.Success? then Return(b, code) else if m.progress.done then Go(Arrived(c, b, inp)) else Go(b)
  {
    hide Tick, TickCode, Arrived;
  }

  lemma BeginsHoming(command: Command)
    requires command == ATREST || command == ASKED
    ensures OnTheWay(Turn(Settings(false), AtStart(0.001, command), WaitInput()), 1,
                     if command == ATREST then ATREST else MOVING)
  {
    hide Tick, TickCode, ActPhase, FinishPhase;
    var c, n, inp := Settings(false), AtStart(0.001, command), WaitInput().step;
    MeasuredAgain(Unmoved(0.001));
    var a0 := ReadPhase(n.arm, inp).arm;
    assert a0.move.joints == [Unmoved(0.001)];
    var a1 := PreparePhase(a0, inp);
    assert AllCleared([Unmoved(0.001)]) == [Unmoved(0.001)] && AllRebased([Unmoved(0.001)]) == [Unmoved(0.001)];
    assert a1.move.joints == [Unmoved(0.001)] && a1.move.progress.initCount == 0 && !a1.move.progress.done;
    var a2 := ProgressPhase(a1, inp);
    ProgressStill(a1, inp);
    ProgressRest(a1, inp);
    FirstCall(a2.move, inp.codes);
    ActOnTheWay(c, a2, inp);
    FinishOnTheWay(c, ActPhase(c, a2, inp).arm);
  }

  /** Joints, command and counters when the arm acts in a later turn. */
  lemma ActingOnTheWay(n: Node, k: nat, command: Command, inp: StepInput)
    requires OnTheWay(n, k, command) && (command == ATREST || command == MOVING)
    requires inp.read == ReadTriage.Verdict(Success, {}) && inp.poses(0) == Pose0() && !inp.stalled(0)
    ensures var b := Acting(n.arm, inp);
      && b.move == Seen(Homing(k)) && b.command == command && !b.ready && b.recovery == n.arm.recovery
      && b.floating == n.arm.floating && b.effector.None? && b.topic.running
      && PreparePhase(ReadPhase(n.arm, inp).arm, inp) == ReadPhase(n.arm, inp).arm && ReadPhase(n.arm, inp).Go?
  {
    hide ProgressPhase;
    var a0 := ReadPhase(n.arm, inp).arm;
    assert a0.move.joints == Seen(Homing(k)).joints;
    ProgressStill(a0, inp);
    ProgressRest(a0, inp);
  }

  lemma GoesOnHoming(n: Node, k: nat, command: Command)
    requires 1 <= k < 30 && OnTheWay(n, k, command) && (command == ATREST || command == MOVING)
    ensures OnTheWay(Turn(Settings(false), n, WaitInput()), k + 1, command)
  {
    hide Tick, TickCode, ActPhase, FinishPhase, PreparePhase, ProgressPhase, ReadPhase;
    var c, inp := Settings(false), WaitInput().step;
    ActingOnTheWay(n, k, command, inp);
    var b := Acting(n.arm, inp);
    LaterCall(k, inp.codes);
    ActOnTheWay(c, b, inp);
    FinishOnTheWay(c, ActPhase(c, b, inp).arm);
  }

  // ----- the end of a start-up move breaks the strict bound -----

  lemma StartupArrives(n: Node)
    requires OnTheWay(n, 30, ATREST)
    ensures Tracking(Turn(Settings(false), n, Seeing(0.0, [], -1.0, 0.0)),
                     Waiting(31).(prev := 0.0, target := 0.0, tele := -1.0), 0.0)
  {
    hide Tick, TickCode, PreparePhase, ProgressPhase, ReadPhase, Announce;
    var c, inp := Settings(false), Seeing(0.0, [], -1.0, 0.0).step;
    ActingOnTheWay(n, 30, ATREST, inp);
    var b := Acting(n.arm, inp);
    LaterCall(30, inp.codes);
    ActOnTheWay(c, b, inp);
    hide ActPhase;
    var d := ActPhase(c, b, inp).arm;
    var j := Waiting(31).(prev := 0.0, target := 0.0);
    assert d.move.joints == [j];
    var e := PublishObservation(c, d, inp).arm;
    assert DispatchAll(c, e, inp, 0) == e;
    assert TakeTargets(c, e, inp).move.joints == [j.(tele := -1.0)];
    AnnounceKeeps(c, n.(arm := Supervised(c, n.arm, Seeing(0.0, [], -1.0, 0.0))));
  }

  function StartupInput(k: nat): NodeInput {
    if k < 30 then WaitInput()
    else if k == 30 then Seeing(0.0, [], -1.0, 0.0)
    else Seeing(0.001, [], -1.0, 0.01)
  }

  lemma {:induction false} HomingFor(command: Command, ins: nat -> NodeInput, k: nat)
    requires (command == ATREST || command == ASKED) && 1 <= k <= 30
    requires forall m: nat :: m < 30 ==> ins(m) == WaitInput()
    ensures OnTheWay(Run(Settings(false), AtStart(0.001, command), ins, k), k,
                     if command == ATREST then ATREST else MOVING)
  {
    hide Turn, OnTheWay;
    var c, n := Settings(false), AtStart(0.001, command);
    RunTurn(c, n, ins, k);
    if k == 1 {
      RunAtStart(c, n, ins);
      BeginsHoming(command);
    } else {
      HomingFor(command, ins, k - 1);
      GoesOnHoming(Run(c, n, ins, k - 1), k - 1, if command == ATREST then ATREST else MOVING);
    }
  }

  /** The turn that ends a start-up move switches to normal mode after its command, and so starts the
      slew over from the pose measured before it. */
  lemma StartupJumpsStrictly()
    ensures JumpsAt(Settings(false), AtStart(0.001, ATREST), StartupInput, 31, true)
    ensures forall m: nat :: StartupInput(m).step.poses(0).Some?
  {
    var c, n := Settings(false), AtStart(0.001, ATREST);
    hide Turn, Seeing, Reach, Near, Run, OnTheWay;
    HomingFor(ATREST, StartupInput, 30);
    StartupArrives(Run(c, n, StartupInput, 30));
    RunTurn(c, n, StartupInput, 31);
    RunTurn(c, n, StartupInput, 32);
    var j := Waiting(31).(prev := 0.0, target := 0.0, tele := -1.0);
    IsSmooth();
    TickJumps(c, Run(c, n, StartupInput, 31), StartupInput(31), j, 0.0, 0.001, true);
    StartupMeasured();
  }

  lemma IsSmooth()
    ensures var inp := Seeing(0.001, [], -1.0, 0.01).step;
      && Smooth(inp) && inp.messages == [] && !inp.silent && inp.direct.Some? && inp.safety(0) == Safety(false, None)
      && inp.poses(0) == Some(0.001) && inp.slewSec == 0.01
  {
  }

  lemma StartupMeasured()
    ensures forall m: nat :: StartupInput(m).step.poses(0).Some?
  {
  }

  // ----- a completion that is not recorded -----

  function RefusingInput(k: nat): NodeInput {
    if k < 30 then WaitInput() else Input(Some(0.0), {}, Other(-1), [], 0.0, 0.0)
  }

  /** A commanded move that arrives in the turn in which its last joint refuses its command: the arm
      is ready, but the request is not recorded as completed, and a recovery begins. */
  lemma CompletionCanBeLost()
    ensures var c, n := Settings(false), AtStart(0.001, ASKED);
      var before, a := Run(c, n, RefusingInput, 30).arm, Run(c, n, RefusingInput, 31).arm;
      && !before.ready && before.command == MOVING
      && a.ready && a.command.requestId == 7 && a.command.completedId == 0 && a.recovery.state.Requested?
  {
    var c, n := Settings(false), AtStart(0.001, ASKED);
    hide Run, Turn;
    HomingFor(ASKED, RefusingInput, 30);
    RunTurn(c, n, RefusingInput, 31);
    RefusedAtArrival(Run(c, n, RefusingInput, 30));
  }

  lemma RefusedAtArrival(n: Node)
    requires OnTheWay(n, 30, MOVING)
    ensures var a := Turn(Settings(false), n, Input(Some(0.0), {}, Other(-1), [], 0.0, 0.0)).arm;
      a.ready && a.command.requestId == 7 && a.command.completedId == 0 && a.recovery.state.Requested?
  {
    hide Tick, TickCode, PreparePhase, ProgressPhase, ReadPhase, Announce, FinishPhase;
    var c, inp := Settings(false), Input(Some(0.0), {}, Other(-1), [], 0.0, 0.0);
    ActingOnTheWay(n, 30, MOVING, inp.step);
    var b := Acting(n.arm, inp.step);
    LaterCall(30, inp.step.codes);
    ActOnTheWay(c, b, inp.step);
    hide ActPhase;
    AnnounceKeeps(c, n.(arm := Supervised(c, n.arm, inp)));
  }

  // ----- a failed joint is commanded -----

  /** An arm at start-up with one joint, and an effector that is far from home. */
  function WithEffector(): Node {
    var n := AtStart(0.0, ATREST);
    n.(arm := n.arm.(effector := Some(Effector(Move([Unmoved(1.0)], Progress(false, 0, 0, 0, 0), {}), ATREST))))
  }

  function SilentInput(k: nat): NodeInput { Blind([], 0.0, 0.0) }

  /** The joint of the arm, not measured. */
  function Blinded(): Joint { Unmoved(0.0).(seen := false) }

  /** The joint has failed and the arm has nothing left to move; the effector is under way. */
  predicate WaitsForEffector(n: Node) {
    var a := n.arm;
    && !a.ready && a.command == ATREST && a.recovery.state.NoRecovery? && a.topic.running
    && a.move.progress.done && a.move.failed == {1} && a.move.joints == [Blinded()]
    && a.effector.Some? && !a.effector.value.move.progress.done
  }

  lemma FarFromHome(m: Move, codes: nat -> ReturnCode)
    requires m.joints == [Unmoved(1.0).(seen := false)] && m.failed == {}
    requires !m.progress.done && m.progress.initCount == 0
    requires codes(0).Success?
    ensures !Tick(m, 0.001, codes).progress.done && TickCode(m, 0.001, codes).Success?
  {
    var r := Ready(m, 0.001);
    assert !Skips(r.joints[0], {}) && Blocks(r.joints[0]);
    assert r.progress.used == 0 && r.progress.total >= 1500;
    assert LastCode(r.joints, {}, codes, 0).Success?;
  }

  lemma EffectorSetsOut(c: Config, e: Effector)
    requires c == Settings(false) && e == WithEffector().arm.effector.value
    ensures var o := EffectorStep(c, e, SilentInput(0).step.effector);
      o.code.Success? && !o.effector.move.progress.done
  {
    hide Tick, TickCode;
    var b := Move(Read(e.move.joints, SilentInput(0).step.effector.poses), e.move.progress, {});
    assert Read(e.move.joints, SilentInput(0).step.effector.poses) == [Unmoved(1.0).(seen := false)];
    FarFromHome(b, SilentInput(0).step.effector.codes);
  }

  lemma ComesToWait()
    ensures WaitsForEffector(Turn(Settings(false), WithEffector(), SilentInput(0)))
  {
    hide Tick, TickCode, Announce, EffectorStep;
    var c, n, inp := Settings(false), WithEffector(), SilentInput(0).step;
    var a0 := ReadPhase(n.arm, inp).arm;
    assert a0.move.joints == [Blinded()];
    assert PreparePhase(a0, inp) == a0;
    var a1 := ProgressPhase(a0, inp);
    ProgressStill(a0, inp);
    ProgressRest(a0, inp);
    NobodyMoves(a1.move, 0.001, inp.codes, Blinded());
    assert Prepared(Blinded()) == Blinded();
    var a2 := ActPhase(c, a1, inp).arm;
    assert a2.move.joints == [Blinded()] && !a2.ready && ActPhase(c, a1, inp).Go?;
    FinishOnTheWay(c, a2);
    FinishIgnoresReading(c, a2);
    EffectorSetsOut(c, n.arm.effector.value);
    AnnounceKeeps(c, n.(arm := Supervised(c, n.arm, SilentInput(0))));
  }

  lemma FinishIgnoresReading(c: Config, a: Arm)
    requires c.role.Follower? && !InRecovery(a) && a.command == ATREST
    ensures FinishPhase(c, a, SilentInput(0).step) == FinishPhase(c, a, WaitInput().step)
  {
    var inp, other := SilentInput(0).step, WaitInput().step;
    var b := PublishObservation(c, a, inp).arm;
    assert b == PublishObservation(c, a, other).arm;
    assert DispatchAll(c, b, inp, 0) == b && DispatchAll(c, b, other, 0) == b;
    assert AllAimed(b.move.joints, inp.direct.value) == AllAimed(b.move.joints, other.direct.value);
  }

  lemma CommandsWhileWaiting(n: Node)
    requires WaitsForEffector(n)
    ensures var a := Turn(Settings(false), n, SilentInput(1)).arm;
      |a.move.joints| == 1 && a.move.joints[0].commands > n.arm.move.joints[0].commands
  {
    hide Turn, ProgressPhase;
    var c, inp := Settings(false), SilentInput(1).step;
    var a0 := ReadPhase(n.arm, inp).arm;
    assert PreparePhase(a0, inp) == a0;
    ProgressStill(a0, inp);
    assert Attempts(inp.codes, 1) == 1;
    FailedJoints.FailedJointCommandedInTurnIff(c, n, SilentInput(1), 0);
    TurnOnlyAdds(c, n, SilentInput(1));
  }

  lemma TurnOnlyAdds(c: Config, n: Node, inp: NodeInput)
    requires Valid(c, n.arm)
    ensures |Turn(c, n, inp).arm.move.joints| == |n.arm.move.joints|
    ensures Turn(c, n, inp).arm.move.joints[0].commands >= n.arm.move.joints[0].commands
  {
    hide Turn, Acting, Reach;
    TurnKeepsToHistoryIff(c, n, inp, 0, true);
  }

  /** An arm whose only joint has fallen silent has nothing to move; while it waits for its effector
      it commands that joint all the same. */
  lemma FailedJointIsCommanded()
    ensures var c, n := Settings(false), WithEffector();
      var a, b := Run(c, n, SilentInput, 1).arm, Run(c, n, SilentInput, 2).arm;
      && a.move.failed == {1} && |a.move.joints| == |b.move.joints| == 1 && a.move.joints[0].servo == 1
      && b.move.joints[0].commands > a.move.joints[0].commands
    ensures FailedJoints.ReadBy(WithEffector().arm, SilentInput(0).step, Readings(0))
    ensures FailedJoints.ReadBy(Run(Settings(false), WithEffector(), SilentInput, 1).arm, SilentInput(1).step,
                                Readings(1))
  {
    var c, n := Settings(false), WithEffector();
    hide Run, Turn;
    RunAtStart(c, n, SilentInput);
    RunTurn(c, n, SilentInput, 1);
    RunTurn(c, n, SilentInput, 2);
    ComesToWait();
    CommandsWhileWaiting(Run(c, n, SilentInput, 1));
    JudgedBlind(n.arm, 0, SilentInput(0).step);
    JudgedBlind(Run(c, n, SilentInput, 1).arm, 1, SilentInput(1).step);
  }

  // ----- a move that ends short of home -----

  const Crawl := 0.00005

  function FarAway(): Move { Move([Unmoved(1.0)], Progress(false, 0, 0, 0, 0), {}) }

  /** A healthy move whose step is below the motion floor of the stuck check ends by its arrival
      confirmation with its joint far from home. */
  lemma CrawlEndsShort() returns (n: nat)
    ensures n >= 1 && HealthyMove.HealthyCalls(FarAway(), Crawl, n).progress.done
    ensures !HealthyMove.HealthyCalls(FarAway(), Crawl, n - 1).progress.done
    ensures !HealthyMove.EveryJointInPlace(HealthyMove.HealthyCalls(FarAway(), Crawl, n))
  {
    hide HealthyMove.HealthyCalls, HealthyMove.EveryJointInPlace;
    n := HealthyMove.HealthyMoveArrives(FarAway(), Crawl);
    HealthyMove.HealthyMoveEndsInPlace(FarAway(), Crawl, n);
    assert FarAway().joints[0] == Unmoved(1.0);
  }
}
