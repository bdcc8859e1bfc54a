/** One control step of the arm, `Device::step` with the arm's own overrides, and of its
    effector, as functions of the state and of what the hardware contributes.  The class
    `DeviceArm` carries them out on the fields of the code. */
module Device {
  import opened Wrappers
  import opened Control
  import opened Reals
  import opened ReadyMove
  import Slew
  import ReadTriage

  // ----- state -----

  datatype ReadyCommand = Idle | Pending | Moving

  /** A commanded ready move; `completedId` is the request the last readiness belongs to. */
  datatype Command = Command(state: ReadyCommand, requestId: int, completedId: int, stopAfter: bool)

  datatype RecoveryState = NoRecovery | Requested | MovingSlow | TimedOut | Completed

  /** `slow` selects the error velocity, `closed` guards the shutdown announcement, and
      `heartbeat` is the time in milliseconds at which a step last ran to its end. */
  datatype Recovery = Recovery(state: RecoveryState, slow: bool, closed: bool, heartbeat: int)

  datatype Source = Startup | OnCommand | Emergency

  /** What a device does that others can see, and the life of a commanded ready move: its request
      was received, taken up, and carried out, and the slow move of a recovery began. */
  datatype Event =
    | ErrorDetected
    | RecoveryInProgress
    | ReadyMoveInProgress(source: Source)
    | ShutdownAfterError
    | TopicStop
    | LeaderObservation
    | FollowerObservation
    | EffectorStepped
    | ReadyNow(id: int)
    | RequestReceived(request: int)
    | MoveBegan(begun: int)
    | MoveEnded(ended: int)
    | SlowMoveBegan

  /** The topic: whether it runs, whether it listens to the leader, when progress was last
      published, and all events so far. */
  datatype Topic = Topic(running: bool, listening: bool, recoveryPublished: int, readyPublished: int,
                         events: seq<Event>)

  /** `move.progress.done` says that the joints of the arm have finished, `ready` that the device
      is ready; `slewClock` is the time in seconds of the last slew or rebase. */
  datatype Arm = Arm(move: Move, ready: bool, command: Command, recovery: Recovery, topic: Topic,
                     slewClock: Option<real>, floating: bool, effector: Option<Effector>)

  /** The effector is ready when its own move is done. */
  datatype Effector = Effector(move: Move, command: Command)

  datatype Config = Config(role: Role, skipHome: bool, feedForward: bool, normalStep: real, errorStep: real,
                           effectorStep: real, timeoutMs: int, frequency: int)

  datatype Message =
    | Stop
    | MoveToReady(id: int)
    | MoveToReadyAndPause(pauseId: int)
    | MoveToReadyAndStop(stopId: int)
    | Hold
    | GravityFloat(answer: ReturnCode)   // what entering gravity compensation returns
    | PauseListening
    | ResumeListening
    | OtherMessage(result: ReturnCode)

  /** The request id a message carries, zero for none. */
  function IdOf(msg: Message): int {
    match msg
    case MoveToReady(id) => id
    case MoveToReadyAndPause(id) => id
    case MoveToReadyAndStop(id) => id
    case _ => 0
  }

  /** The protections of a servo that override its target: outside its limits, and held where it
      fell behind. */
  datatype Safety = Safety(exceeded: bool, behind: Option<real>)

  /** Everything one step learns from outside. */
  datatype StepInput = StepInput(
    poses: nat -> Option<real>, read: ReadTriage.Verdict,
    commandMode: bool, recoveryMode: bool, normalMode: bool,
    enterMs: int, checkMs: int, progressMs: int, endMs: int, rebaseSec: real, slewSec: real, holdSec: real,
    feedForward: ReturnCode, codes: nat -> ReturnCode, stalled: nat -> bool, safety: nat -> Safety,
    runaway: bool, floating: ReturnCode, leading: ReturnCode, write: ReturnCode, observe: ReturnCode,
    messages: seq<Message>, live: Option<nat -> real>, direct: Option<nat -> real>,
    holdMode: ReturnCode, silent: bool, effector: EffectorInput)

  datatype EffectorInput = EffectorInput(
    poses: nat -> Option<real>, read: ReadTriage.Verdict, codes: nat -> ReturnCode,
    operate: ReturnCode, write: ReturnCode)

  /** A phase either goes on or makes the step return. */
  datatype Outcome = Go(arm: Arm) | Return(arm: Arm, code: ReturnCode)

  // ----- building blocks -----

  predicate InRecovery(a: Arm) { !a.recovery.state.NoRecovery? }

  function StepLength(c: Config, a: Arm): real { if a.recovery.slow then c.errorStep else c.normalStep }

  function Emit(t: Topic, e: Event): Topic { t.(events := t.events + [e]) }

  function StopTopic(t: Topic): Topic { Emit(t, TopicStop).(running := false) }

  function AllRebased(js: seq<Joint>): (r: seq<Joint>)
    ensures |r| == |js|
    ensures forall i :: 0 <= i < |js| ==> r[i] == Rebased(js[i])
  {
    seq(|js|, i requires 0 <= i < |js| => Rebased(js[i]))
  }

  function AllCleared(js: seq<Joint>): (r: seq<Joint>)
    ensures |r| == |js|
    ensures forall i :: 0 <= i < |js| ==> r[i] == Cleared(js[i])
  {
    seq(|js|, i requires 0 <= i < |js| => Cleared(js[i]))
  }

  /** `reset_slew_targets_to_current`: the commanded positions and the slew clock start over from
      the measured pose. */
  function ResetSlew(a: Arm, sec: real): Arm {
    a.(move := a.move.(joints := AllRebased(a.move.joints)), slewClock := Some(sec))
  }

  /** `clear_command_buffers_for_move_to_ready`: so do the buffered targets. */
  function Rebase(a: Arm, sec: real): Arm {
    a.(move := a.move.(joints := AllCleared(a.move.joints)), slewClock := Some(sec))
  }

  /** Position control: restarts the slew, and ends a gravity float. */
  function FollowerMode(a: Arm, ok: bool, sec: real): Arm {
    if ok then ResetSlew(a, sec).(floating := false) else a
  }

  function Restarted(m: Move): Move {
    m.(progress := m.progress.(done := false, initCount := 0, reached := 0))
  }

  function ResetReady(a: Arm): Arm { a.(ready := false, move := Restarted(a.move)) }

  function MarkCompleted(a: Arm): Arm {
    if a.recovery.state.NoRecovery? then a
    else if a.recovery.closed then a.(recovery := a.recovery.(state := Completed))
    else a.(recovery := a.recovery.(state := Completed, closed := true),
            topic := StopTopic(Emit(a.topic, ShutdownAfterError)))
  }

  /** `enter_emergency_recovery`: only a silent servo is taken out of use. */
  function EnterRecovery(a: Arm, cause: ReturnCode, joint: int): Arm {
    var lost := if cause.SafeModeSig? && joint >= 0 then {joint} else {};
    if a.recovery.state.NoRecovery? then
      a.(recovery := a.recovery.(state := Requested, slow := true, closed := false),
         move := a.move.(failed := lost),
         topic := Emit(a.topic.(listening := false), ErrorDetected))
    else a.(move := a.move.(failed := a.move.failed + lost))
  }

  function WithRequest(c: Command, id: int): Command {
    c.(state := Pending, requestId := id, completedId := 0)
  }

  function SetDone(m: Move, done: bool): Move { m.(progress := m.progress.(done := done)) }

  function RequestEffectorMove(e: Effector, id: int): Effector {
    Effector(SetDone(e.move, false), WithRequest(e.command, id))
  }

  /** `request_move_to_ready_position`: the arm and its effector lose their readiness at once. */
  function RequestMove(a: Arm, id: int): Arm {
    a.(command := WithRequest(a.command, id), ready := false,
       topic := Emit(a.topic.(readyPublished := 0), RequestReceived(id)),
       effector := match a.effector case None => None case Some(e) => Some(RequestEffectorMove(e, id)))
  }

  function RequestMoveAndStop(a: Arm, id: int): Arm {
    var b := RequestMove(a, id);
    b.(command := b.command.(stopAfter := true))
  }

  // ----- the phases of a step -----

  /** A joint after its reading; a stall locks its target where it is. */
  function Sensed(j: Joint, p: Option<real>, stalled: bool): Joint {
    var k := Measured(j, p);
    if stalled && p.Some? then k.(tele := k.pos) else k
  }

  function ReadJoints(js: seq<Joint>, inp: StepInput): (r: seq<Joint>)
    ensures |r| == |js|
    ensures forall i :: 0 <= i < |js| ==> r[i] == Sensed(js[i], inp.poses(i), inp.stalled(i))
  {
    seq(|js|, i requires 0 <= i < |js| => Sensed(js[i], inp.poses(i), inp.stalled(i)))
  }

  function ReadPhase(a: Arm, inp: StepInput): Outcome {
    var b := a.(move := Move(ReadJoints(a.move.joints, inp), a.move.progress, inp.read.failed));
    if inp.read.code.Success? || InRecovery(a) then Go(b) else Return(b, inp.read.code)
  }

  function BeginCommand(a: Arm, inp: StepInput): Arm {
    if a.command.state.Pending? then
      var b := ResetReady(FollowerMode(Rebase(a, inp.rebaseSec), inp.commandMode, inp.rebaseSec));
      b.(command := b.command.(state := Moving), topic := Emit(b.topic, MoveBegan(b.command.requestId)))
    else a
  }

  function BeginRecovery(a: Arm, inp: StepInput): Arm {
    if a.recovery.state.Requested? then
      var b := ResetReady(FollowerMode(Rebase(a, inp.rebaseSec), inp.recoveryMode, inp.rebaseSec));
      b.(recovery := b.recovery.(state := MovingSlow, heartbeat := inp.enterMs), topic := Emit(b.topic, SlowMoveBegan))
    else a
  }

  predicate Stale(c: Config, a: Arm, inp: StepInput) {
    a.recovery.state.MovingSlow? && c.timeoutMs > 0 && inp.checkMs - a.recovery.heartbeat >= c.timeoutMs
  }

  function CheckTimeout(c: Config, a: Arm, inp: StepInput): Outcome {
    if Stale(c, a, inp) then Return(MarkCompleted(a.(recovery := a.recovery.(state := TimedOut))), Success)
    else Go(a)
  }

  function PublishRecoveryProgress(a: Arm, inp: StepInput): Arm {
    if a.recovery.state.MovingSlow? && inp.progressMs - a.topic.recoveryPublished >= EMERGENCY_PROGRESS_PUBLISH_INTERVAL_MS
    then a.(topic := Emit(a.topic.(recoveryPublished := inp.progressMs), RecoveryInProgress))
    else a
  }

  function ReadyMoveSource(a: Arm): Option<Source> {
    if a.recovery.state.MovingSlow? then Some(Emergency)
    else if InRecovery(a) then None
    else if a.command.state.Moving? then Some(OnCommand)
    else if !a.ready && a.command.state.Idle? then Some(Startup)
    else None
  }

  function PublishReadyProgress(a: Arm, inp: StepInput): Arm {
    var source := ReadyMoveSource(a);
    if source.Some? && inp.progressMs - a.topic.readyPublished >= EMERGENCY_PROGRESS_PUBLISH_INTERVAL_MS
    then a.(topic := Emit(a.topic.(readyPublished := inp.progressMs), ReadyMoveInProgress(source.value)))
    else a
  }

  /** How many of the first `n` joints a loop commands that stops at the first failure. */
  function Attempts(codes: nat -> ReturnCode, n: nat): (k: nat)
    ensures k <= n
  {
    if n == 0 then 0
    else
      var k := Attempts(codes, n - 1);
      if k < n - 1 || (n > 1 && !codes(n - 2).Success?) then k else n
  }

  /** The code of such a loop. */
  function LoopCode(codes: nat -> ReturnCode, n: nat): ReturnCode {
    var k := Attempts(codes, n);
    if k == 0 then Success else codes(k - 1)
  }

  function CommandedUpTo(js: seq<Joint>, targets: seq<real>, n: nat): (r: seq<Joint>)
    requires |targets| == |js|
    ensures |r| == |js|
    ensures forall i :: 0 <= i < |js| ==> r[i] == if i < n then Commanded(js[i], targets[i]) else js[i]
  {
    seq(|js|, i requires 0 <= i < |js| => if i < n then Commanded(js[i], targets[i]) else js[i])
  }

  function Poses(js: seq<Joint>): (r: seq<real>)
    ensures |r| == |js|
    ensures forall i :: 0 <= i < |js| ==> r[i] == js[i].pos
  {
    seq(|js|, i requires 0 <= i < |js| => js[i].pos)
  }

  function Previous(js: seq<Joint>): (r: seq<real>)
    ensures |r| == |js|
    ensures forall i :: 0 <= i < |js| ==> r[i] == js[i].prev
  {
    seq(|js|, i requires 0 <= i < |js| => js[i].prev)
  }

  function Speeds(js: seq<Joint>): (r: seq<real>)
    ensures |r| == |js|
    ensures forall i :: 0 <= i < |js| ==> r[i] == js[i].velMax
  {
    seq(|js|, i requires 0 <= i < |js| => js[i].velMax)
  }

  /** `get_safe_tele_pos_rad`: the buffered target, unless a protection overrides it. */
  function SafeGoal(j: Joint, s: Safety): real {
    if s.exceeded && j.tele > j.posMax then j.posMax
    else if s.exceeded && j.tele < j.posMin then j.posMin
    else if s.behind.Some? then s.behind.value
    else j.tele
  }

  function Goals(js: seq<Joint>, safety: nat -> Safety): (r: seq<real>)
    ensures |r| == |js|
    ensures forall i :: 0 <= i < |js| ==> r[i] == SafeGoal(js[i], safety(i))
  {
    seq(|js|, i requires 0 <= i < |js| => SafeGoal(js[i], safety(i)))
  }

  /** The joints of the arm move towards home, or, once there, hold their measured pose. */
  function MoveJoints(c: Config, a: Arm, inp: StepInput): Outcome {
    var js := a.move.joints;
    if !a.move.progress.done then
      var m := Tick(a.move, StepLength(c, a), inp.codes);
      var b := a.(move := m);
      var code := TickCode(a.move, StepLength(c, a), inp.codes);
      var d := if m.progress.done && InRecovery(a) then MarkCompleted(b) else b;
      if code.Success? then Go(d) else Return(d, code)
    else
      var code := LoopCode(inp.codes, |js|);
      var b := a.(move := a.move.(joints := CommandedUpTo(js, Poses(js), Attempts(inp.codes, |js|))));
      if code.Success? then
        Go(b.(move := b.move.(progress := b.move.progress.(initCount := b.move.progress.initCount + 1))))
      else Return(b, code)
  }

  /** The device is ready when its joints are done and so is its effector, if it has one; during
      recovery the effector is declared ready. */
  function AwaitEffector(a: Arm): Arm {
    if !a.move.progress.done then a
    else match a.effector
      case None => a.(ready := true)
      case Some(e) =>
        if InRecovery(a) then a.(ready := true, effector := Some(e.(move := SetDone(e.move, true))))
        else a.(ready := a.ready || e.move.progress.done)
  }

  /** `move_to_ready_position`.  A failed move ends the step only after the counters and the
      readiness have been settled; a failure while holding ends it at once. */
  function MoveToReadyPosition(c: Config, a: Arm, inp: StepInput): Outcome {
    if c.skipHome && a.command.state.Idle? && !InRecovery(a) then
      var b := Rebase(a, inp.rebaseSec);
      Go(b.(ready := true, move := SetDone(b.move, true)))
    else if c.feedForward && !inp.feedForward.Success? then Return(a, inp.feedForward)
    else
      var r := MoveJoints(c, a, inp);
      if r.Go? then Go(AwaitEffector(r.arm))
      else if a.move.progress.done then r
      else Return(AwaitEffector(r.arm), r.code)
  }

  function SlewTime(c: Config, a: Arm, inp: StepInput): real
    requires c.frequency > 0
  {
    match a.slewClock
    case None => 1.0 / c.frequency as real
    case Some(t) => Max(0.000000001, inp.slewSec - t)
  }

  /** `operate_as_follower`: one tick of the synchronized slew, or the gravity float. */
  function OperateAsFollower(c: Config, a: Arm, inp: StepInput): Outcome {
    if a.floating then
      if inp.runaway && inp.floating.Success? then Go(Rebase(a, inp.slewSec).(floating := false))
      else if inp.floating.Success? then Go(a)
      else Return(a, inp.floating)
    else if c.feedForward && !inp.feedForward.Success? then Return(a, inp.feedForward)
    else if c.frequency <= 0 then Return(a, Other(-4))
    else
      var js := a.move.joints;
      var targets := Slew.Tick(Previous(js), Goals(js, inp.safety), Speeds(js), SlewTime(c, a, inp));
      var b := a.(move := a.move.(joints := CommandedUpTo(js, targets, Attempts(inp.codes, |js|))),
                  slewClock := Some(inp.slewSec));
      var code := LoopCode(inp.codes, |js|);
      if code.Success? then Go(b) else Return(b, code)
  }

  function NormalMode(c: Config, a: Arm, inp: StepInput): Arm {
    if c.role.Follower? then FollowerMode(a, inp.normalMode, inp.rebaseSec) else a
  }

  function Arrived(c: Config, a: Arm, inp: StepInput): Arm {
    match a.command.state
    case Idle => NormalMode(c, a, inp)
    case Moving => a.(command := a.command.(completedId := a.command.requestId, requestId := 0),
                      topic := Emit(a.topic, MoveEnded(a.command.requestId)))
    case Pending => a
  }

  /** Back to normal operation after a commanded move. */
  function Restore(c: Config, a: Arm, inp: StepInput): Arm {
    if a.command.state.Moving? then
      var b := Rebase(NormalMode(c, a, inp), inp.rebaseSec);
      var d := b.(command := b.command.(state := Idle));
      if d.command.stopAfter then d.(topic := StopTopic(d.topic)) else d
    else a
  }

  function ActPhase(c: Config, a: Arm, inp: StepInput): Outcome {
    if !a.ready then
      var r := MoveToReadyPosition(c, a, inp);
      if r.Go? && r.arm.ready then Go(Arrived(c, r.arm, inp)) else r
    else
      var b := Restore(c, a, inp);
      if c.role.Follower? then OperateAsFollower(c, b, inp)
      else if inp.leading.Success? then Go(b) else Return(b, inp.leading)
  }

  function PublishObservation(c: Config, a: Arm, inp: StepInput): Outcome {
    if c.role.Leader? && InRecovery(a) then Go(a)
    else if !inp.observe.Success? then Return(a, inp.observe)
    else Go(a.(topic := Emit(a.topic, if c.role.Leader? then LeaderObservation else FollowerObservation)))
  }

  predicate RejectsDirectCommands(a: Arm) { InRecovery(a) || !a.command.state.Idle? }

  /** `runtime_hold`: ends a gravity float first, then rebases unless another motion owns the arm. */
  function HoldNow(a: Arm, inp: StepInput): Arm {
    var b := if a.floating && inp.holdMode.Success? then ResetSlew(a, inp.holdSec).(floating := false) else a;
    if b.floating || RejectsDirectCommands(b) then b else Rebase(b, inp.holdSec)
  }

  function SetListening(c: Config, a: Arm, listening: bool): Arm {
    if c.role.Follower? then a.(topic := a.topic.(listening := listening)) else a
  }

  /** `process_leader_msg`: during recovery only a stop, or a normal-speed move that ends in a
      stop, gets through. */
  function Dispatch(c: Config, a: Arm, msg: Message, inp: StepInput): Arm {
    if InRecovery(a) && !msg.Stop? && !msg.MoveToReadyAndStop? then a
    else match msg
      case Stop => a.(topic := StopTopic(a.topic))
      case MoveToReady(id) => RequestMove(a, id)
      case MoveToReadyAndPause(id) => RequestMove(SetListening(c, a, false), id)
      case MoveToReadyAndStop(id) => RequestMoveAndStop(SetListening(c, a, false), id)
      case Hold => HoldNow(a, inp)
      case GravityFloat(answer) => if c.role.Follower? && answer.Success? then a.(floating := true) else a
      case PauseListening => SetListening(c, a, false)
      case ResumeListening => SetListening(c, a, true)
      case OtherMessage(_) => a
  }

  /** The result code a command is acknowledged with. */
  function Answer(c: Config, a: Arm, msg: Message, inp: StepInput): ReturnCode {
    if InRecovery(a) && !msg.Stop? && !msg.MoveToReadyAndStop? then BUSY
    else match msg
      case Hold =>
        if a.floating && !inp.holdMode.Success? then inp.holdMode
        else if RejectsDirectCommands(a) then BUSY
        else Success
      case GravityFloat(answer) => if c.role.Follower? && a.floating then Success else answer
      case OtherMessage(result) => result
      case _ => Success
  }

  function DispatchAll(c: Config, a: Arm, inp: StepInput, n: nat): Arm
    requires n <= |inp.messages|
  {
    if n == 0 then a else Dispatch(c, DispatchAll(c, a, inp, n - 1), inp.messages[n - 1], inp)
  }

  function AllAimed(js: seq<Joint>, targets: nat -> real): (r: seq<Joint>)
    ensures |r| == |js|
    ensures forall i :: 0 <= i < |js| ==> r[i] == js[i].(tele := targets(i))
  {
    seq(|js|, i requires 0 <= i < |js| => js[i].(tele := targets(i)))
  }

  /** `apply_action`. */
  function Aim(a: Arm, targets: nat -> real): Arm {
    a.(move := a.move.(joints := AllAimed(a.move.joints, targets)))
  }

  predicate TakesLive(c: Config, a: Arm, inp: StepInput) {
    a.topic.running && inp.live.Some? && !InRecovery(a) && (c.role.Follower? ==> a.topic.listening)
  }

  predicate TakesDirect(c: Config, a: Arm, inp: StepInput) {
    a.topic.running && inp.direct.Some? && c.role.Follower? && !RejectsDirectCommands(a)
  }

  /** Targets arrive after the commands: those of the leader's stream, unless it is paused, then
      direct ones, unless another motion owns the arm. */
  function TakeTargets(c: Config, a: Arm, inp: StepInput): Arm {
    var b := if TakesLive(c, a, inp) then Aim(a, inp.live.value) else a;
    if TakesDirect(c, b, inp) then Aim(b, inp.direct.value) else b
  }

  /** The client's silence drops a follower to a hold, unless another motion owns the arm. */
  function ClientWatchdog(c: Config, a: Arm, inp: StepInput): Arm {
    if inp.silent && a.ready && !RejectsDirectCommands(a) && c.role.Follower?
    then HoldNow(SetListening(c, a, false), inp) else a
  }

  function FinishPhase(c: Config, a: Arm, inp: StepInput): Outcome {
    if !inp.write.Success? then Return(a, inp.write)
    else
      var r := PublishObservation(c, a, inp);
      if r.Return? then r
      else
        var b := ClientWatchdog(c, TakeTargets(c, DispatchAll(c, r.arm, inp, |inp.messages|), inp), inp);
        Return(b.(recovery := b.recovery.(heartbeat := inp.endMs)), Success)
  }

  // ----- the step -----

  function PreparePhase(a: Arm, inp: StepInput): Arm { BeginRecovery(BeginCommand(a, inp), inp) }

  function ProgressPhase(a: Arm, inp: StepInput): Arm {
    PublishReadyProgress(PublishRecoveryProgress(a, inp), inp)
  }

  /** The arm when it acts: its joints read, a request or a recovery taken up, progress published. */
  function Acting(a: Arm, inp: StepInput): Arm {
    ProgressPhase(PreparePhase(ReadPhase(a, inp).arm, inp), inp)
  }

  /** `Device::step` of an arm. */
  function Step(c: Config, a: Arm, inp: StepInput): (r: Outcome)
    ensures r.Return?
  {
    var r0 := ReadPhase(a, inp);
    if r0.Return? then r0
    else
      var r1 := CheckTimeout(c, PreparePhase(r0.arm, inp), inp);
      if r1.Return? then r1
      else
        var r2 := ActPhase(c, ProgressPhase(r1.arm, inp), inp);
        if r2.Return? then r2 else FinishPhase(c, r2.arm, inp)
  }

  // ----- the effector -----

  datatype EffectorOutcome = EffectorOutcome(effector: Effector, code: ReturnCode)

  function BeginEffectorCommand(e: Effector): Effector {
    if e.command.state.Pending? then Effector(Restarted(e.move), e.command.(state := Moving)) else e
  }

  /** What an effector that is not ready does: one call of its move. */
  function MoveEffector(c: Config, e: Effector, inp: EffectorInput): EffectorOutcome {
    if c.skipHome && e.command.state.Idle? then
      EffectorOutcome(e.(move := SetDone(e.move.(joints := AllCleared(e.move.joints)), true)), inp.write)
    else
      var m := Tick(e.move, c.effectorStep, inp.codes);
      var code := TickCode(e.move, c.effectorStep, inp.codes);
      if !code.Success? then EffectorOutcome(e.(move := m), code)
      else if m.progress.done && e.command.state.Moving? then
        EffectorOutcome(Effector(m, e.command.(completedId := e.command.requestId, requestId := 0)), inp.write)
      else EffectorOutcome(e.(move := m), inp.write)
  }

  /** What a ready effector does: back to normal operation, then its own control. */
  function OperateEffector(e: Effector, inp: EffectorInput): EffectorOutcome {
    var b := if e.command.state.Moving? then e.(command := e.command.(state := Idle)) else e;
    EffectorOutcome(b, if inp.operate.Success? then inp.write else inp.operate)
  }

  /** `Device::step` of an effector, which has neither a topic nor a recovery of its own. */
  function EffectorStep(c: Config, e: Effector, inp: EffectorInput): EffectorOutcome {
    var b := e.(move := Move(Read(e.move.joints, inp.poses), e.move.progress, inp.read.failed));
    if !inp.read.code.Success? then EffectorOutcome(b, inp.read.code)
    else
      var d := BeginEffectorCommand(b);
      if d.move.progress.done then OperateEffector(d, inp) else MoveEffector(c, d, inp)
  }

  /** `DeviceArm::step`: the effector follows unless a recovery was on when the step began. */
  function ArmStep(c: Config, a: Arm, inp: StepInput): (r: Outcome)
    ensures r.Return?
  {
    var r := Step(c, a, inp);
    if !r.code.Success? || InRecovery(a) || r.arm.effector.None? then r
    else
      var o := EffectorStep(c, r.arm.effector.value, inp.effector);
      Return(r.arm.(effector := Some(o.effector), topic := Emit(r.arm.topic, EffectorStepped)), o.code)
  }
}
