/** The devices as objects: the fields of the code, and its methods, loops included, proved
    against the functions of `ReadyMove` and `Device`. */
module Devices {
  import opened Wrappers
  import opened Control
  import opened Reals
  import opened ReadyMove
  import opened Device
  import FailedJoints
  import ReadTriage
  import Slew

  /** What the arm and the effector share: their joints, the counters of a ready move and the
      servos taken out of use. */
  class ReadyMover {
    const joints: array<Joint>
    var done: bool
    var initCount: nat
    var reached: nat
    var budgetTotal: int
    var budgetUsed: nat
    var failedIds: set<int>

    constructor (js: array<Joint>)
      ensures joints == js && View() == Move(js[..], Progress(false, 0, 0, 0, 0), {})
    {
      joints := js;
      done, initCount, reached, budgetTotal, budgetUsed, failedIds := false, 0, 0, 0, 0, {};
    }

    function Counters(): Progress
      reads this
    {
      Progress(done, initCount, reached, budgetTotal, budgetUsed)
    }

    ghost function View(): Move
      reads this, joints
    {
      Move(joints[..], Counters(), failedIds)
    }

    /** New measurements; a joint that was not read keeps its pose. */
    method Measure(poses: nat -> Option<real>)
      modifies joints
      ensures joints[..] == Read(old(joints[..]), poses)
    {
      ghost var js := joints[..];
      for i := 0 to joints.Length
        invariant forall k :: i <= k < joints.Length ==> joints[k] == js[k]
        invariant forall k :: 0 <= k < i ==> joints[k] == Measured(js[k], poses(k))
      {
        joints[i] := Measured(joints[i], poses(i));
      }
    }

    /** `reset_slew_targets_to_current`. */
    method RebaseTargets()
      modifies joints
      ensures joints[..] == AllRebased(old(joints[..]))
    {
      ghost var js := joints[..];
      for i := 0 to joints.Length
        invariant forall k :: i <= k < joints.Length ==> joints[k] == js[k]
        invariant forall k :: 0 <= k < i ==> joints[k] == Rebased(js[k])
      {
        var j := joints[i];
        joints[i] := j.(target := j.pos, prev := j.pos);
      }
    }

    /** `clear_command_buffers_for_move_to_ready`. */
    method ClearTargets()
      modifies joints
      ensures joints[..] == AllCleared(old(joints[..]))
    {
      ghost var js := joints[..];
      for i := 0 to joints.Length
        invariant forall k :: i <= k < joints.Length ==> joints[k] == js[k]
        invariant forall k :: 0 <= k < i ==> joints[k] == Cleared(js[k])
      {
        var j := joints[i];
        joints[i] := j.(tele := j.pos, target := j.pos, prev := j.pos);
      }
    }

    /** `apply_action`. */
    method TakeTargets(targets: nat -> real)
      modifies joints
      ensures joints[..] == AllAimed(old(joints[..]), targets)
    {
      ghost var js := joints[..];
      for i := 0 to joints.Length
        invariant forall k :: i <= k < joints.Length ==> joints[k] == js[k]
        invariant forall k :: 0 <= k < i ==> joints[k] == js[k].(tele := targets(k))
      {
        joints[i] := joints[i].(tele := targets(i));
      }
    }

    /** A stall locks the target of a joint where it was measured. */
    method LockStalled(poses: nat -> Option<real>, stalled: nat -> bool)
      modifies joints
      ensures |joints[..]| == |old(joints[..])|
      ensures forall k :: 0 <= k < joints.Length ==>
                joints[k] == if stalled(k) && poses(k).Some? then old(joints[k]).(tele := old(joints[k]).pos)
                             else old(joints[k])
    {
      ghost var js := joints[..];
      for i := 0 to joints.Length
        invariant forall k :: i <= k < joints.Length ==> joints[k] == js[k]
        invariant forall k :: 0 <= k < i ==>
                    joints[k] == if stalled(k) && poses(k).Some? then js[k].(tele := js[k].pos) else js[k]
      {
        if stalled(i) && poses(i).Some? {
          var j := joints[i];
          joints[i] := j.(tele := j.pos);
        }
      }
    }

    /** The start of a move: every joint heads home, and the budget is set from the distance of
        the joint that is farthest from it. */
    method Prepare(step: real)
      requires initCount < 1
      modifies this, joints
      ensures View() == Ready(old(View()), step)
    {
      ghost var js := joints[..];
      var farthest := 0.0;
      for i := 0 to joints.Length
        invariant forall k :: i <= k < joints.Length ==> joints[k] == js[k]
        invariant forall k :: 0 <= k < i ==> joints[k] == Prepared(js[k])
        invariant farthest == MaxDisplacement(js, i)
        invariant Counters() == old(Counters()) && failedIds == old(failedIds)
      {
        var j := joints[i];
        joints[i] := Prepared(j);
        farthest := Max(farthest, Abs(j.home - j.pos));
      }
      reached, budgetUsed, budgetTotal := 0, 0, Budget(farthest, step);
      assert joints[..] == AllPrepared(js);
    }

    /** One call of the move, for a device whose move is not done. */
    method Advance(step: real, codes: nat -> ReturnCode) returns (code: ReturnCode)
      requires !done
      modifies this, joints
      ensures View() == Tick(old(View()), step, codes)
      ensures code == TickCode(old(View()), step, codes)
    {
      hide Budget, MaxDisplacement, ReadyJoint, Prepared, FailedMoves, LastCode, Skips, Blocks;
      if initCount < 1 {
        Prepare(step);
      }
      var responsive, blocked, lost;
      responsive, blocked, lost, code := SweepJoints(joints, step, failedIds, codes);
      failedIds := failedIds + lost;
      if blocked {
        reached := 0;
      }
      budgetUsed := budgetUsed + 1;
      var exhausted := budgetTotal > 0 && budgetUsed > budgetTotal;
      if !responsive {
        done, initCount := true, 0;
      } else if !blocked {
        reached := reached + 1;
        if reached > DEVICE_ARRIVED_CONFIRM_CNT {
          done, initCount := true, 0;
        }
      } else if exhausted {
        done, initCount := true, 0;
      }
      initCount := initCount + 1;
    }

    /** The loops that command every joint and give up at the first failure. */
    method CommandAll(targets: seq<real>, codes: nat -> ReturnCode) returns (code: ReturnCode)
      requires |targets| == joints.Length
      modifies joints
      ensures joints[..] == CommandedUpTo(old(joints[..]), targets, Attempts(codes, joints.Length))
      ensures code == LoopCode(codes, joints.Length)
    {
      ghost var js := joints[..];
      code := Success;
      var i := 0;
      while i < joints.Length
        invariant 0 <= i <= joints.Length && Attempts(codes, i) == i
        invariant forall k :: i <= k < joints.Length ==> joints[k] == js[k]
        invariant forall k :: 0 <= k < i ==> joints[k] == Commanded(js[k], targets[k])
        invariant code == LoopCode(codes, i) && code.Success?
      {
        joints[i] := Commanded(joints[i], targets[i]);
        code := codes(i);
        i := i + 1;
        if !code.Success? {
          AttemptsStop(codes, i, joints.Length);
          return;
        }
      }
    }
  }

  /** A loop that has stopped stays stopped. */
  lemma {:induction false} AttemptsStop(codes: nat -> ReturnCode, i: nat, n: nat)
    requires 1 <= i <= n && Attempts(codes, i) == i && !codes(i - 1).Success?
    ensures Attempts(codes, n) == i && LoopCode(codes, n) == codes(i - 1)
  {
    if i < n {
      AttemptsStop(codes, i, n - 1);
    }
  }

  /** The effector. */
  class DeviceEffector {
    const base: ReadyMover
    var command: ReadyCommand
    var requestId: int
    var completedId: int
    var stopAfter: bool

    constructor (b: ReadyMover)
      ensures base == b && View() == Effector(b.View(), Command(Idle, 0, 0, false))
    {
      base := b;
      command, requestId, completedId, stopAfter := Idle, 0, 0, false;
    }

    ghost function View(): Effector
      reads this, base, base.joints
    {
      Effector(base.View(), Command(command, requestId, completedId, stopAfter))
    }

    method RequestMoveToReadyPosition(id: int)
      modifies this, base
      ensures View() == RequestEffectorMove(old(View()), id)
    {
      requestId, completedId, command := id, 0, Pending;
      base.done := false;
    }

    method ForceToBeReady()
      modifies base
      ensures View() == old(View()).(move := SetDone(old(View()).move, true))
    {
      base.done := true;
    }

    /** `DeviceEffector::move_to_ready_position`, and the completion of a request. */
    method MoveToReadyPosition(c: Config, inp: EffectorInput) returns (code: ReturnCode)
      requires !base.done
      modifies this, base, base.joints
      ensures View() == MoveEffector(c, old(View()), inp).effector && code == MoveEffector(c, old(View()), inp).code
    {
      if c.skipHome && command.Idle? {
        base.ClearTargets();
        base.done := true;
      } else {
        code := base.Advance(c.effectorStep, inp.codes);
        if !code.Success? {
          return;
        }
        if base.done && command.Moving? {
          completedId := requestId;
          requestId := 0;
        }
      }
      code := inp.write;
    }

    /** `Device::step` of the effector. */
    method Step(c: Config, inp: EffectorInput) returns (code: ReturnCode)
      modifies this, base, base.joints
      ensures View() == EffectorStep(c, old(View()), inp).effector && code == EffectorStep(c, old(View()), inp).code
    {
      hide MoveEffector;
      base.Measure(inp.poses);
      base.failedIds := inp.read.failed;
      code := inp.read.code;
      if !code.Success? {
        return;
      }
      if command.Pending? {
        base.done, base.initCount, base.reached := false, 0, 0;
        command := Moving;
      }
      if !base.done {
        code := MoveToReadyPosition(c, inp);
      } else {
        if command.Moving? {
          command := Idle;
        }
        code := inp.operate;
        if code.Success? {
          code := inp.write;
        }
      }
    }
  }

  /** The arm.  `events` is a record of what it has published and of the requests it has served. */
  class DeviceArm {
    const cfg: Config
    const base: ReadyMover
    const effector: DeviceEffector?
    var isReady: bool
    var command: ReadyCommand
    var requestId: int
    var completedId: int
    var stopAfter: bool
    var emergency: RecoveryState
    var slowMove: bool
    var completedPublished: bool
    var lastStepHeartbeat: int
    var running: bool
    var listening: bool
    var lastRecoveryPublish: int
    var lastReadyPublish: int
    var events: seq<Event>
    var slewLastTime: Option<real>
    var gravityFloat: bool

    constructor (c: Config, b: ReadyMover, e: DeviceEffector?)
      ensures cfg == c && base == b && effector == e
      ensures View() == Arm(b.View(), false, Command(Idle, 0, 0, false), Recovery(NoRecovery, false, false, 0),
                            Topic(true, c.role.Leader?, 0, 0, []), None, false,
                            if e == null then None else Some(e.View()))
    {
      cfg, base, effector := c, b, e;
      isReady, command, requestId, completedId, stopAfter := false, Idle, 0, 0, false;
      emergency, slowMove, completedPublished, lastStepHeartbeat := NoRecovery, false, false, 0;
      running, listening, lastRecoveryPublish, lastReadyPublish, events := true, c.role.Leader?, 0, 0, [];
      slewLastTime, gravityFloat := None, false;
    }

    ghost predicate Valid() { effector != null ==> effector.base != base && effector.base.joints != base.joints }

    ghost function EffectorParts(): set<object> {
      if effector == null then {} else {effector, effector.base, effector.base.joints}
    }

    ghost function Parts(): set<object> { {base, base.joints} + EffectorParts() }

    ghost function EffectorView(): Option<Effector>
      reads EffectorParts()
    {
      if effector == null then None else Some(effector.View())
    }

    ghost function TopicView(): Topic
      reads this
    {
      Topic(running, listening, lastRecoveryPublish, lastReadyPublish, events)
    }

    ghost function View(): Arm
      reads this, Parts()
    {
      Arm(base.View(), isReady, Command(command, requestId, completedId, stopAfter),
          Recovery(emergency, slowMove, completedPublished, lastStepHeartbeat), TopicView(),
          slewLastTime, gravityFloat, EffectorView())
    }

    /** The step goes on, or returns a code, as the specification says. */
    ghost predicate Does(r: Outcome, code: Option<ReturnCode>)
      reads this, Parts()
    {
      View() == r.arm && code == (if r.Return? then Some(r.code) else None)
    }

    predicate Recovering()
      reads this
    {
      !emergency.NoRecovery?
    }

    // ----- requests and recovery -----

    method Publish(e: Event)
      requires Valid()
      modifies this`events
      ensures View() == old(View()).(topic := Emit(old(View()).topic, e))
    {
      events := events + [e];
    }

    method StopTopicNow()
      requires Valid()
      modifies this
      ensures View() == old(View()).(topic := StopTopic(old(View()).topic))
    {
      events, running := events + [TopicStop], false;
    }

    method RequestMoveToReadyPosition(id: int)
      requires Valid()
      modifies this, Parts()
      ensures View() == RequestMove(old(View()), id)
    {
      requestId, completedId, isReady, lastReadyPublish, command := id, 0, false, 0, Pending;
      events := events + [RequestReceived(id)];
      if effector != null {
        effector.RequestMoveToReadyPosition(id);
      }
    }

    method RequestMoveToReadyAndStop(id: int)
      requires Valid()
      modifies this, Parts()
      ensures View() == RequestMoveAndStop(old(View()), id)
    {
      stopAfter := true;
      RequestMoveToReadyPosition(id);
    }

    method GiveUpOn(ids: set<int>)
      requires Valid()
      modifies base`failedIds
      ensures View() == old(View()).(move := old(View()).move.(failed := old(View()).move.failed + ids))
    {
      base.failedIds := base.failedIds + ids;
    }

    method ForgetFailed()
      requires Valid()
      modifies base`failedIds
      ensures View() == old(View()).(move := old(View()).move.(failed := {}))
    {
      base.failedIds := {};
    }

    method ArmRecovery()
      requires Valid()
      modifies this
      ensures View() == old(View()).(
                          recovery := old(View()).recovery.(state := Requested, slow := true, closed := false),
                          topic := Emit(old(View()).topic.(listening := false), ErrorDetected))
    {
      emergency, slowMove, completedPublished := Requested, true, false;
      listening, events := false, events + [ErrorDetected];
    }

    method EnterEmergencyRecovery(cause: ReturnCode, joint: int)
      requires Valid()
      modifies this, base`failedIds
      ensures View() == EnterRecovery(old(View()), cause, joint)
    {
      hide Emit;
      if emergency.NoRecovery? {
        ForgetFailed();
        ArmRecovery();
      }
      if cause.SafeModeSig? && joint >= 0 {
        GiveUpOn({joint});
      }
    }

    method MarkEmergencyRecoveryCompleted()
      requires Valid()
      modifies this
      ensures View() == MarkCompleted(old(View()))
    {
      if emergency.NoRecovery? {
        return;
      }
      emergency := Completed;
      if !completedPublished {
        completedPublished := true;
        events := events + [ShutdownAfterError] + [TopicStop];
        running := false;
      }
    }

    // ----- rebasing -----

    method ClearCommandBuffers(sec: real)
      requires Valid()
      modifies this`slewLastTime, base.joints
      ensures View() == Rebase(old(View()), sec)
    {
      base.ClearTargets();
      slewLastTime := Some(sec);
    }

    method ResetSlewTargets(sec: real)
      requires Valid()
      modifies this`slewLastTime, base.joints
      ensures View() == ResetSlew(old(View()), sec)
    {
      base.RebaseTargets();
      slewLastTime := Some(sec);
    }

    method SetFollowerMode(ok: bool, sec: real)
      requires Valid()
      modifies this, base.joints
      ensures View() == FollowerMode(old(View()), ok, sec)
    {
      if ok {
        ResetSlewTargets(sec);
        gravityFloat := false;
      }
    }

    method ResetReadyState()
      requires Valid()
      modifies this, base
      ensures View() == ResetReady(old(View()))
    {
      isReady := false;
      base.done, base.initCount, base.reached := false, 0, 0;
    }

    method RuntimeHold(inp: StepInput) returns (code: ReturnCode)
      requires Valid()
      modifies this, base.joints
      ensures View() == HoldNow(old(View()), inp)
      ensures !old(Recovering()) ==> code == Answer(cfg, old(View()), Hold, inp)
    {
      if gravityFloat {
        if !inp.holdMode.Success? {
          return inp.holdMode;
        }
        ResetSlewTargets(inp.holdSec);
        gravityFloat := false;
      }
      if Recovering() || !command.Idle? {
        return BUSY;
      }
      ClearCommandBuffers(inp.holdSec);
      code := Success;
    }

    // ----- the phases of a step -----

    method ReadHardwareValues(input: StepInput, reading: ReadTriage.Reading)
      returns (inp: StepInput, code: Option<ReturnCode>)
      requires Valid() && |reading.codes| == base.joints.Length
      modifies this, base, base.joints
      ensures Does(ReadPhase(old(View()), inp), code)
      ensures FailedJoints.Judged(input, inp) && FailedJoints.ReadBy(old(View()), inp, reading)
    {
      hide ReadTriage.IsVerdict, ReadTriage.IsRead;
      var servos := [];
      for i := 0 to base.joints.Length
        invariant |servos| == i && forall k :: 0 <= k < i ==> servos[k] == base.joints[k].servo
      {
        servos := servos + [base.joints[i].servo];
      }
      assert servos == FailedJoints.Servos(base.joints[..]);
      var verdict, poses, named;
      verdict, poses, named :=
        ReadTriage.ReadHardwareValues(servos, base.failedIds, Recovering() || !isReady, reading, -1);
      ghost var js := base.joints[..];
      var found := (i: nat) => if i < |poses| then poses[i] else None;
      inp := input.(read := verdict, poses := found);
      base.Measure(found);
      base.LockStalled(found, inp.stalled);
      assert base.joints[..] == ReadJoints(js, inp);
      base.failedIds := verdict.failed;
      code := if verdict.code.Success? || Recovering() then None else Some(verdict.code);
    }

    method TakeUpCommand(inp: StepInput)
      requires Valid()
      modifies this, base, base.joints
      ensures View() == BeginCommand(old(View()), inp)
    {
      hide Rebase, ResetReady, FollowerMode;
      if command.Pending? {
        ClearCommandBuffers(inp.rebaseSec);
        SetFollowerMode(inp.commandMode, inp.rebaseSec);
        ResetReadyState();
        Publish(MoveBegan(requestId));
        command := Moving;
      }
    }

    method TakeUpRecovery(inp: StepInput)
      requires Valid()
      modifies this, base, base.joints
      ensures View() == BeginRecovery(old(View()), inp)
    {
      hide Rebase, ResetReady, FollowerMode;
      if emergency.Requested? {
        ClearCommandBuffers(inp.rebaseSec);
        SetFollowerMode(inp.recoveryMode, inp.rebaseSec);
        ResetReadyState();
        Publish(SlowMoveBegan);
        lastStepHeartbeat := inp.enterMs;
        emergency := MovingSlow;
      }
    }

    /** The watchdog: code when the step ends here. */
    method CheckEmergencyTimeout(inp: StepInput) returns (code: Option<ReturnCode>)
      requires Valid()
      modifies this
      ensures Does(CheckTimeout(cfg, old(View()), inp), code)
    {
      hide MarkCompleted;
      code := None;
      if emergency.MovingSlow? && cfg.timeoutMs > 0 && inp.checkMs - lastStepHeartbeat >= cfg.timeoutMs {
        emergency := TimedOut;
        MarkEmergencyRecoveryCompleted();
        code := Some(Success);
      }
    }

    method PublishRecovery(inp: StepInput)
      requires Valid()
      modifies this
      ensures View() == PublishRecoveryProgress(old(View()), inp)
    {
      if emergency.MovingSlow? && inp.progressMs - lastRecoveryPublish >= EMERGENCY_PROGRESS_PUBLISH_INTERVAL_MS {
        lastRecoveryPublish, events := inp.progressMs, events + [RecoveryInProgress];
      }
    }

    method PublishReadyMove(inp: StepInput)
      requires Valid()
      modifies this
      ensures View() == PublishReadyProgress(old(View()), inp)
    {
      var startup := !isReady && command.Idle? && emergency.NoRecovery?;
      var onCommand := command.Moving? && emergency.NoRecovery?;
      if (startup || onCommand || emergency.MovingSlow?)
         && inp.progressMs - lastReadyPublish >= EMERGENCY_PROGRESS_PUBLISH_INTERVAL_MS
      {
        var source := if emergency.MovingSlow? then Emergency else if onCommand then OnCommand else Startup;
        lastReadyPublish, events := inp.progressMs, events + [ReadyMoveInProgress(source)];
      }
    }

    method AwaitEffectorReady()
      requires Valid()
      modifies this, Parts()
      ensures View() == AwaitEffector(old(View()))
    {
      if base.done {
        if effector == null {
          isReady := true;
        } else if Recovering() {
          effector.ForceToBeReady();
          isReady := true;
        } else if effector.base.done {
          isReady := true;
        }
      }
    }

    /** Moving the joints home, or holding them there. */
    method MoveOrHold(inp: StepInput) returns (code: Option<ReturnCode>)
      requires Valid()
      modifies this, base, base.joints
      ensures Does(MoveJoints(cfg, old(View()), inp), code)
    {
      hide Tick, TickCode, MarkCompleted, Attempts, LoopCode;
      var rc;
      if !base.done {
        rc := base.Advance(if slowMove then cfg.errorStep else cfg.normalStep, inp.codes);
        if base.done && Recovering() {
          MarkEmergencyRecoveryCompleted();
        }
      } else {
        var held := [];
        for i := 0 to base.joints.Length
          invariant |held| == i && forall k :: 0 <= k < i ==> held[k] == base.joints[k].pos
        {
          held := held + [base.joints[i].pos];
        }
        assert held == Poses(base.joints[..]);
        rc := base.CommandAll(held, inp.codes);
        if rc.Success? {
          base.initCount := base.initCount + 1;
        }
      }
      code := if rc.Success? then None else Some(rc);
    }

    /** `DeviceArm::move_to_ready_position`. */
    method MoveToReady(inp: StepInput) returns (code: Option<ReturnCode>)
      requires Valid()
      modifies this, Parts()
      ensures Does(MoveToReadyPosition(cfg, old(View()), inp), code)
    {
      hide MoveJoints, AwaitEffector, Rebase;
      if cfg.skipHome && command.Idle? && !Recovering() {
        ClearCommandBuffers(inp.rebaseSec);
        isReady := true;
        base.done := true;
        return None;
      }
      if cfg.feedForward && !inp.feedForward.Success? {
        return Some(inp.feedForward);
      }
      var holding := base.done;
      code := MoveOrHold(inp);
      if holding && code.Some? {
        return;
      }
      AwaitEffectorReady();
    }
  
    /** The synchronized slew, `operate_as_follower` past its guards: the scale every joint can
        keep up with, then one command per joint. */
    method SlewJoints(inp: StepInput, dt: real) returns (code: ReturnCode)
      requires Valid()
      modifies base.joints
      ensures var js := old(base.joints[..]);
        && base.joints[..] == CommandedUpTo(js, Slew.Tick(Previous(js), Goals(js, inp.safety), Speeds(js), dt),
                                            Attempts(inp.codes, |js|))
        && code == LoopCode(inp.codes, |js|)
      ensures View() == old(View()).(move := old(View()).move.(joints := base.joints[..]))
    {
      hide Slew.JointScale, Slew.Toward;
      ghost var js := base.joints[..];
      ghost var prev, goals, vel := Previous(js), Goals(js, inp.safety), Speeds(js);
      var scale := 1.0;
      for i := 0 to base.joints.Length
        invariant scale == Slew.ScaleUpTo(prev, goals, vel, dt, i)
      {
        var j := base.joints[i];
        var delta := Abs(SafeGoal(j, inp.safety(i)) - j.prev);
        if delta > 0.0 {
          scale := Min(scale, Slew.JointScale(j.velMax, dt, delta));
        }
      }
      var targets := [];
      for i := 0 to base.joints.Length
        invariant |targets| == i
        invariant forall k :: 0 <= k < i ==> targets[k] == Slew.Toward(prev[k], goals[k], scale)
      {
        var j := base.joints[i];
        targets := targets + [Slew.Toward(j.prev, SafeGoal(j, inp.safety(i)), scale)];
      }
      assert targets == Slew.Tick(prev, goals, vel, dt);
      code := base.CommandAll(targets, inp.codes);
    }

    /** `DeviceArm::operate_as_follower`. */
    method OperateFollowing(inp: StepInput) returns (code: Option<ReturnCode>)
      requires Valid()
      modifies this, base.joints
      ensures Does(OperateAsFollower(cfg, old(View()), inp), code)
    {
      hide Slew.Tick, Rebase, Attempts, LoopCode;
      if gravityFloat {
        if inp.runaway && inp.floating.Success? {
          ClearCommandBuffers(inp.slewSec);
          gravityFloat := false;
        }
        return if inp.floating.Success? then None else Some(inp.floating);
      }
      if cfg.feedForward && !inp.feedForward.Success? {
        return Some(inp.feedForward);
      }
      if cfg.frequency <= 0 {
        return Some(Other(-4));
      }
      var dt := 1.0 / cfg.frequency as real;
      if slewLastTime.Some? {
        dt := Max(0.000000001, inp.slewSec - slewLastTime.value);
      }
      slewLastTime := Some(inp.slewSec);
      var rc := SlewJoints(inp, dt);
      code := if rc.Success? then None else Some(rc);
    }

    method SetNormalMode(inp: StepInput)
      requires Valid()
      modifies this, base.joints
      ensures View() == NormalMode(cfg, old(View()), inp)
    {
      if cfg.role.Follower? {
        SetFollowerMode(inp.normalMode, inp.rebaseSec);
      }
    }

    method RestoreNormal(inp: StepInput)
      requires Valid()
      modifies this, base.joints
      ensures View() == Restore(cfg, old(View()), inp)
    {
      hide NormalMode, Rebase, Emit;
      if command.Moving? {
        SetNormalMode(inp);
        ClearCommandBuffers(inp.rebaseSec);
        command := Idle;
        if stopAfter {
          StopTopicNow();
        }
      }
    }

    /** The middle of the step: the ready move, or normal operation. */
    method Act(inp: StepInput) returns (code: Option<ReturnCode>)
      requires Valid()
      modifies this, Parts()
      ensures Does(ActPhase(cfg, old(View()), inp), code)
    {
      hide MoveToReadyPosition, Restore, OperateAsFollower, NormalMode;
      if !isReady {
        code := MoveToReady(inp);
        if code.None? && isReady {
          if command.Idle? {
            SetNormalMode(inp);
          } else if command.Moving? {
            Publish(MoveEnded(requestId));
            completedId, requestId := requestId, 0;
          }
        }
      } else {
        RestoreNormal(inp);
        if cfg.role.Follower? {
          code := OperateFollowing(inp);
        } else {
          code := if inp.leading.Success? then None else Some(inp.leading);
        }
      }
    }

    method SetListeningTo(on: bool)
      requires Valid()
      modifies this
      ensures View() == SetListening(cfg, old(View()), on)
    {
      if cfg.role.Follower? {
        listening := on;
      }
    }

    /** `process_leader_msg`. */
    method ProcessMessage(msg: Message, inp: StepInput) returns (code: ReturnCode)
      requires Valid()
      modifies this, Parts()
      ensures View() == Dispatch(cfg, old(View()), msg, inp)
      ensures code == Answer(cfg, old(View()), msg, inp)
    {
      hide RequestMove, RequestMoveAndStop, HoldNow, StopTopic;
      if Recovering() && !msg.Stop? && !msg.MoveToReadyAndStop? {
        return BUSY;
      }
      code := Success;
      match msg
      case Stop =>
        StopTopicNow();
      case MoveToReady(id) =>
        RequestMoveToReadyPosition(id);
      case MoveToReadyAndPause(id) =>
        SetListeningTo(false);
        RequestMoveToReadyPosition(id);
      case MoveToReadyAndStop(id) =>
        SetListeningTo(false);
        RequestMoveToReadyAndStop(id);
      case Hold =>
        code := RuntimeHold(inp);
      case GravityFloat(answer) =>
        code := if cfg.role.Follower? && gravityFloat then Success else answer;
        if cfg.role.Follower? && answer.Success? {
          gravityFloat := true;
        }
      case PauseListening =>
        SetListeningTo(false);
      case ResumeListening =>
        SetListeningTo(true);
      case OtherMessage(result) =>
        code := result;
    }

    method ProcessMessages(inp: StepInput)
      requires Valid()
      modifies this, Parts()
      ensures View() == DispatchAll(cfg, old(View()), inp, |inp.messages|)
    {
      hide Dispatch;
      for i := 0 to |inp.messages|
        invariant View() == DispatchAll(cfg, old(View()), inp, i)
      {
        var _ := ProcessMessage(inp.messages[i], inp);
      }
    }

    /** The joint streams, drained after the command channel. */
    method ProcessTargets(inp: StepInput)
      requires Valid()
      modifies base.joints
      ensures View() == TakeTargets(cfg, old(View()), inp)
    {
      if running && inp.live.Some? && !Recovering() && (cfg.role.Follower? ==> listening) {
        base.TakeTargets(inp.live.value);
      }
      if running && inp.direct.Some? && cfg.role.Follower? && !Recovering() && command.Idle? {
        base.TakeTargets(inp.direct.value);
      }
    }

    method CheckClientWatchdog(inp: StepInput)
      requires Valid()
      modifies this, base.joints
      ensures View() == ClientWatchdog(cfg, old(View()), inp)
    {
      hide HoldNow;
      if inp.silent && isReady && command.Idle? && !Recovering() && cfg.role.Follower? {
        SetListeningTo(false);
        var _ := RuntimeHold(inp);
      }
    }

    method PublishState(inp: StepInput) returns (code: Option<ReturnCode>)
      requires Valid()
      modifies this
      ensures Does(PublishObservation(cfg, old(View()), inp), code)
    {
      code := None;
      if cfg.role.Leader? && Recovering() {
        return;
      }
      if !inp.observe.Success? {
        return Some(inp.observe);
      }
      Publish(if cfg.role.Leader? then LeaderObservation else FollowerObservation);
    }

    method Finish(inp: StepInput) returns (code: ReturnCode)
      requires Valid()
      modifies this, Parts()
      ensures Does(FinishPhase(cfg, old(View()), inp), Some(code))
    {
      hide PublishObservation, DispatchAll, TakeTargets, ClientWatchdog;
      if !inp.write.Success? {
        return inp.write;
      }
      var stopped := PublishState(inp);
      if stopped.Some? {
        return stopped.value;
      }
      ProcessMessages(inp);
      ProcessTargets(inp);
      CheckClientWatchdog(inp);
      lastStepHeartbeat := inp.endMs;
      code := Success;
    }

    /** `Device::step` of the arm, given what the hardware answers; the verdict on the reading and
        the poses it works with are the arm's own. */
    method StepArm(input: StepInput, reading: ReadTriage.Reading)
      returns (inp: StepInput, code: ReturnCode)
      requires Valid() && |reading.codes| == base.joints.Length
      modifies this, Parts()
      ensures Does(Step(cfg, old(View()), inp), Some(code))
      ensures FailedJoints.Judged(input, inp) && FailedJoints.ReadBy(old(View()), inp, reading)
    {
      hide ReadPhase, BeginCommand, BeginRecovery, CheckTimeout, ActPhase, FinishPhase, PublishRecoveryProgress,
           PublishReadyProgress;
      var stopped;
      inp, stopped := ReadHardwareValues(input, reading);
      if stopped.Some? {
        return inp, stopped.value;
      }
      TakeUpCommand(inp);
      TakeUpRecovery(inp);
      stopped := CheckEmergencyTimeout(inp);
      if stopped.Some? {
        return inp, stopped.value;
      }
      PublishRecovery(inp);
      PublishReadyMove(inp);
      stopped := Act(inp);
      if stopped.Some? {
        return inp, stopped.value;
      }
      code := Finish(inp);
    }

    /** `DeviceArm::step`: the arm, then its effector. */
    method StepBoth(input: StepInput, reading: ReadTriage.Reading)
      returns (inp: StepInput, code: ReturnCode)
      requires Valid() && |reading.codes| == base.joints.Length
      modifies this, Parts()
      ensures Does(ArmStep(cfg, old(View()), inp), Some(code))
      ensures FailedJoints.Judged(input, inp) && FailedJoints.ReadBy(old(View()), inp, reading)
    {
      hide Step, EffectorStep, FailedJoints.ReadBy;
      var inRecovery := Recovering();
      inp, code := StepArm(input, reading);
      if code.Success? && effector != null && !inRecovery {
        code := effector.Step(cfg, inp.effector);
        Publish(EffectorStepped);
      }
    }
  }
}
