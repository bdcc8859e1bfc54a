/** After a rebase the arm stays where it is: over whole runs, every command equals the pose of the
    latest rebase until a target, a request or a recovery arrives, or a protection overrides the
    buffered target. */
module Rest {
  import opened Wrappers
  import opened Reals
  import opened ReadyMove
  import opened Device
  import opened ControlNode
  import opened JointStep
  import opened NoJump
  import Slew

  /** The joint is commanded to be at its buffered target. */
  predicate Rested(j: Joint) { j.prev == j.tele }

  /** A follower in normal operation. */
  predicate Operating(c: Config, a: Arm) {
    c.role.Follower? && a.ready && a.command.state.Idle? && !InRecovery(a) && !a.floating
  }

  predicate AtRest(c: Config, a: Arm, i: nat) {
    Operating(c, a) && i < |a.move.joints| && Rested(a.move.joints[i])
  }

  // ----- one tick -----

  lemma NoWay(from: real, to: real, s: real)
    requires s > 0.0
    ensures Slew.Toward(from, to, s) == from <==> to == from
  {
    var way := to - from;
    assert Slew.Toward(from, to, s) == from + s * way;
    if way > 0.0 {
      MulPositive(s, way);
    } else if way < 0.0 {
      MulPositive(s, -way);
      assert s * way == -(s * (-way));
    }
  }

  lemma Speedy(c: Config, a: Arm)
    requires Valid(c, a)
    ensures Slew.Limits(Speeds(a.move.joints))
  {
  }

  /** A tick commands a resting joint to stay exactly when the protections leave its target alone. */
  lemma TickLeavesRestIff(c: Config, a: Arm, inp: StepInput, i: nat)
    requires Valid(c, a) && AtRest(c, a, i)
    ensures |OperateAsFollower(c, a, inp).arm.move.joints| == |a.move.joints|
    ensures var j, k := a.move.joints[i], OperateAsFollower(c, a, inp).arm.move.joints[i];
      && k.tele == j.tele
      && (k.commands == j.commands ==> k.prev == j.prev)
      && (k.commands > j.commands ==>
            k.prev == k.sent && (k.sent == j.tele <==> SafeGoal(j, inp.safety(i)) == j.tele))
  {
    hide Slew.Scale, Slew.Toward, Slew.Covered, Attempts, LoopCode, SlewTime;
    var js := a.move.joints;
    var prev, goals, vel, dt := Previous(js), Goals(js, inp.safety), Speeds(js), SlewTime(c, a, inp);
    Speedy(c, a);
    TickTimeIsPositive(c, a, inp);
    Slew.ScaleIsShare(prev, goals, vel, dt, |js|);
    Slew.CoveredFacts(dt, Slew.TimeToGoUpTo(prev, goals, vel, |js|));
    ScaleIsPositive(prev, goals, vel, dt);
    NoWay(js[i].prev, SafeGoal(js[i], inp.safety(i)), Slew.Scale(prev, goals, vel, dt));
  }

  lemma ScaleIsPositive(prev: seq<real>, goals: seq<real>, vel: seq<real>, dt: real)
    requires |prev| == |goals| == |vel| && Slew.Limits(vel) && dt > 0.0
    ensures Slew.Scale(prev, goals, vel, dt) > 0.0
  {
    hide Slew.ScaleUpTo, Slew.Covered;
    Slew.ScaleIsShare(prev, goals, vel, dt, |prev|);
    Slew.CoveredFacts(dt, Slew.TimeToGoUpTo(prev, goals, vel, |prev|));
  }

  // ----- one turn -----

  /** Messages that neither request a move nor start a gravity float. */
  predicate Harmless(msg: Message) {
    && !msg.MoveToReady? && !msg.MoveToReadyAndPause? && !msg.MoveToReadyAndStop?
    && !(msg.GravityFloat? && msg.answer.Success?)
  }

  /** No hold is asked for, and the client is not silent. */
  predicate Unheld(inp: StepInput) {
    !inp.silent && forall m :: 0 <= m < |inp.messages| ==> !inp.messages[m].Hold?
  }

  /** The arm when it looks for targets, at the end of a step in which it operates. */
  function Listening(c: Config, a: Arm, inp: StepInput): Arm {
    var b := PublishObservation(c, OperateAsFollower(c, Acting(a, inp), inp).arm, inp).arm;
    DispatchAll(c, b, inp, |inp.messages|)
  }

  /** Nothing new arrives in this turn for joint `i`: no target is taken, no move is requested, no
      stall is reported, and the protections leave its target alone. */
  predicate NothingNew(c: Config, a: Arm, inp: StepInput, i: nat) {
    && i < |a.move.joints|
    && (forall m :: 0 <= m < |inp.messages| ==> Harmless(inp.messages[m]))
    && !TakesLive(c, Listening(c, a, inp), inp) && !TakesDirect(c, Listening(c, a, inp), inp)
    && !inp.stalled(i) && SafeGoal(a.move.joints[i], inp.safety(i)) == a.move.joints[i].tele
  }

  /** Still at rest, at the same place unless it was rebased. */
  predicate StaysAtRest(c: Config, a: Arm, b: Arm, i: nat) {
    && AtRest(c, b, i) && |b.move.joints| == |a.move.joints| && i < |a.move.joints|
    && b.move.joints[i].commands == a.move.joints[i].commands && b.move.joints[i].sent == a.move.joints[i].sent
    && b.move.joints[i].pos == a.move.joints[i].pos
    && (b.move.joints[i].tele == a.move.joints[i].tele || b.move.joints[i].tele == a.move.joints[i].pos)
  }

  lemma HoldAtRest(c: Config, a: Arm, inp: StepInput, i: nat)
    requires AtRest(c, a, i)
    ensures StaysAtRest(c, a, HoldNow(a, inp), i)
  {
  }

  lemma DispatchAtRest(c: Config, a: Arm, msg: Message, inp: StepInput, i: nat)
    requires AtRest(c, a, i) && Harmless(msg)
    ensures StaysAtRest(c, a, Dispatch(c, a, msg, inp), i)
    ensures !msg.Hold? ==> Dispatch(c, a, msg, inp).move == a.move
  {
    hide HoldNow;
    HoldAtRest(c, a, inp, i);
  }

  lemma {:induction false} DispatchAllAtRest(c: Config, a: Arm, inp: StepInput, n: nat, i: nat)
    requires AtRest(c, a, i) && n <= |inp.messages|
    requires forall m :: 0 <= m < |inp.messages| ==> Harmless(inp.messages[m])
    ensures StaysAtRest(c, a, DispatchAll(c, a, inp, n), i)
    ensures Unheld(inp) ==> DispatchAll(c, a, inp, n).move == a.move
  {
    hide Dispatch;
    if n > 0 {
      DispatchAllAtRest(c, a, inp, n - 1, i);
      DispatchAtRest(c, DispatchAll(c, a, inp, n - 1), inp.messages[n - 1], inp, i);
    }
  }

  lemma FinishAtRest(c: Config, a: Arm, inp: StepInput, i: nat)
    requires AtRest(c, a, i)
    requires forall m :: 0 <= m < |inp.messages| ==> Harmless(inp.messages[m])
    requires var d := DispatchAll(c, PublishObservation(c, a, inp).arm, inp, |inp.messages|);
      !TakesLive(c, d, inp) && !TakesDirect(c, d, inp)
    ensures StaysAtRest(c, a, FinishPhase(c, a, inp).arm, i)
    ensures Unheld(inp) ==> FinishPhase(c, a, inp).arm.move == a.move
  {
    hide DispatchAll, HoldNow;
    var b := PublishObservation(c, a, inp).arm;
    DispatchAllAtRest(c, b, inp, |inp.messages|, i);
    var d := DispatchAll(c, b, inp, |inp.messages|);
    HoldAtRest(c, SetListening(c, d, false), inp, i);
  }

  lemma ActingAtRest(c: Config, a: Arm, inp: StepInput, i: nat)
    requires AtRest(c, a, i) && !inp.stalled(i)
    ensures var b := Acting(a, inp);
      && AtRest(c, b, i) && |b.move.joints| == |a.move.joints|
      && b.move.joints[i] == Measured(a.move.joints[i], inp.poses(i))
      && PreparePhase(ReadPhase(a, inp).arm, inp) == ReadPhase(a, inp).arm
  {
    hide ProgressPhase;
    ProgressStill(ReadPhase(a, inp).arm, inp);
    ProgressKeepsFloating(ReadPhase(a, inp).arm, inp);
  }

  lemma ProgressKeepsFloating(a: Arm, inp: StepInput)
    ensures ProgressPhase(a, inp).floating == a.floating
  {
  }

  lemma OperateKeepsOperating(c: Config, a: Arm, inp: StepInput)
    requires Operating(c, a)
    ensures Operating(c, OperateAsFollower(c, a, inp).arm)
  {
    hide Slew.Tick, Attempts, LoopCode;
  }

  lemma OperateAtRest(c: Config, a: Arm, inp: StepInput, i: nat)
    requires Valid(c, a) && AtRest(c, a, i) && SafeGoal(a.move.joints[i], inp.safety(i)) == a.move.joints[i].tele
    ensures var b := OperateAsFollower(c, a, inp).arm;
      && AtRest(c, b, i) && |b.move.joints| == |a.move.joints|
      && b.move.joints[i].tele == a.move.joints[i].tele && b.move.joints[i].pos == a.move.joints[i].pos
      && (b.move.joints[i].commands > a.move.joints[i].commands ==> b.move.joints[i].sent == a.move.joints[i].tele)
      && b.move.joints[i].commands >= a.move.joints[i].commands
  {
    hide OperateAsFollower, SlewTime, Covers;
    TickLeavesRestIff(c, a, inp, i);
    OperateKeepsOperating(c, a, inp);
    TickTimeIsPositive(c, a, inp);
    OperateClose(c, a, inp, i);
  }

  /** What a turn leaves of the rest: every command of it goes to the place of rest, which is kept
      or is the pose just measured. */
  predicate RestedTurn(j: Joint, k: Joint, inp: StepInput) {
    && (k.commands > j.commands ==> k.sent == j.tele)
    && (k.tele == j.tele || k.tele == k.pos) && (Unheld(inp) ==> k.tele == j.tele)
  }

  lemma StepAtRest(c: Config, a: Arm, inp: StepInput, i: nat)
    requires Valid(c, a) && AtRest(c, a, i) && NothingNew(c, a, inp, i)
    ensures var b := Step(c, a, inp).arm;
      && AtRest(c, b, i) && |b.move.joints| == |a.move.joints| && RestedTurn(a.move.joints[i], b.move.joints[i], inp)
  {
    hide Acting, PreparePhase, ProgressPhase, OperateAsFollower, FinishPhase, Listening, SafeGoal, DispatchAll, Unheld;
    var b := Acting(a, inp);
    ActingAtRest(c, a, inp, i);
    ActingIsValid(c, a, inp);
    SafeGoalOf(a.move.joints[i], inp.poses(i), inp.safety(i));
    OperateAtRest(c, b, inp, i);
    ActIsOperate(c, b, inp);
    ListeningIs(c, a, inp);
    ReadIsSensed(a, inp, i);
    var d := OperateAsFollower(c, b, inp).arm;
    FinishAtRest(c, d, inp, i);
    AtRestStep(c, a, inp);
  }

  lemma SafeGoalOf(j: Joint, p: Option<real>, s: Safety)
    ensures SafeGoal(Measured(j, p), s) == SafeGoal(j, s)
    ensures Measured(j, p).tele == j.tele && Measured(j, p).commands == j.commands
  {
  }

  lemma ReadIsSensed(a: Arm, inp: StepInput, i: nat)
    requires i < |a.move.joints| && !inp.stalled(i)
    ensures ReadPhase(a, inp).arm.move.joints[i] == Measured(a.move.joints[i], inp.poses(i))
  {
  }

  lemma ActIsOperate(c: Config, a: Arm, inp: StepInput)
    requires Operating(c, a)
    ensures ActPhase(c, a, inp) == OperateAsFollower(c, a, inp)
  {
    hide OperateAsFollower;
  }

  lemma ListeningIs(c: Config, a: Arm, inp: StepInput)
    ensures Listening(c, a, inp)
      == DispatchAll(c, PublishObservation(c, OperateAsFollower(c, Acting(a, inp), inp).arm, inp).arm, inp,
                     |inp.messages|)
  {
    hide Acting, OperateAsFollower, DispatchAll, PublishObservation;
  }

  lemma AtRestStep(c: Config, a: Arm, inp: StepInput)
    requires Operating(c, a) && PreparePhase(ReadPhase(a, inp).arm, inp) == ReadPhase(a, inp).arm
    ensures var r := ActPhase(c, Acting(a, inp), inp);
      Step(c, a, inp) == if ReadPhase(a, inp).Return? then ReadPhase(a, inp)
                         else if r.Return? then r else FinishPhase(c, r.arm, inp)
  {
    hide PreparePhase, ProgressPhase, ActPhase, FinishPhase, ReadJoints;
  }

  /** One turn of the node: the arm stays at rest, unless the turn ends in a recovery. */
  lemma TurnAtRest(c: Config, n: Node, inp: NodeInput, i: nat)
    requires Valid(c, n.arm) && AtRest(c, n.arm, i) && NothingNew(c, n.arm, inp.step, i)
    ensures var b := Turn(c, n, inp).arm;
      && |b.move.joints| == |n.arm.move.joints| && RestedTurn(n.arm.move.joints[i], b.move.joints[i], inp.step)
      && (InRecovery(b) || AtRest(c, b, i))
  {
    hide Step, EffectorStep, NothingNew, Unheld;
    StepAtRest(c, n.arm, inp.step, i);
  }

  // ----- whole runs -----

  /** From turn `j` up to turn `m` nothing new arrives for joint `i`, and no recovery begins. */
  ghost predicate Undisturbed(c: Config, n: Node, ins: nat -> NodeInput, i: nat, j: nat, m: nat) {
    forall k: nat :: j <= k < m ==> Calm(c, n, ins, i, k)
  }

  ghost predicate Calm(c: Config, n: Node, ins: nat -> NodeInput, i: nat, k: nat) {
    NothingNew(c, Run(c, n, ins, k).arm, ins(k).step, i) && !InRecovery(Run(c, n, ins, k + 1).arm)
  }

  lemma {:induction false} RunAtRest(c: Config, n: Node, ins: nat -> NodeInput, i: nat, j: nat, m: nat)
    requires Valid(c, n.arm) && j <= m && AtRest(c, Run(c, n, ins, j).arm, i) && Undisturbed(c, n, ins, i, j, m)
    ensures AtRest(c, Run(c, n, ins, m).arm, i)
    ensures (forall k: nat :: j <= k < m ==> Unheld(ins(k).step)) ==>
              Run(c, n, ins, m).arm.move.joints[i].tele == Run(c, n, ins, j).arm.move.joints[i].tele
    decreases m
  {
    hide Run, Turn, NothingNew, Valid, Unheld;
    if j < m {
      RunAtRest(c, n, ins, i, j, m - 1);
      RunStaysValid(c, n, ins, m - 1);
      RunTurn(c, n, ins, m);
      assert Calm(c, n, ins, i, m - 1);
      TurnAtRest(c, Run(c, n, ins, m - 1), ins(m - 1), i);
    }
  }

  /** From a rebase on, every command of every turn equals the pose of the latest rebase. */
  lemma CommandsStayAtRest(c: Config, n: Node, ins: nat -> NodeInput, i: nat, j: nat, m: nat)
    requires Valid(c, n.arm) && j < m && AtRest(c, Run(c, n, ins, j).arm, i) && Undisturbed(c, n, ins, i, j, m)
    ensures var b, d := Run(c, n, ins, m - 1).arm, Run(c, n, ins, m).arm;
      && i < |b.move.joints| && i < |d.move.joints|
      && (d.move.joints[i].commands > b.move.joints[i].commands ==> d.move.joints[i].sent == b.move.joints[i].tele)
      && (d.move.joints[i].tele == b.move.joints[i].tele || d.move.joints[i].tele == d.move.joints[i].pos)
  {
    hide Run, Turn, NothingNew, Valid, Unheld;
    RunAtRest(c, n, ins, i, j, m - 1);
    RunAtRest(c, n, ins, i, j, m);
    RunStaysValid(c, n, ins, m - 1);
    RunTurn(c, n, ins, m);
    assert Calm(c, n, ins, i, m - 1);
    TurnAtRest(c, Run(c, n, ins, m - 1), ins(m - 1), i);
  }

  /** Without a hold in between, that is one and the same pose all the time. */
  lemma CommandsStayPut(c: Config, n: Node, ins: nat -> NodeInput, i: nat, j: nat, m: nat)
    requires Valid(c, n.arm) && j < m && AtRest(c, Run(c, n, ins, j).arm, i) && Undisturbed(c, n, ins, i, j, m)
    requires forall k: nat :: j <= k < m ==> Unheld(ins(k).step)
    ensures var b, d := Run(c, n, ins, m - 1).arm, Run(c, n, ins, m).arm;
      && i < |b.move.joints| && i < |d.move.joints|
      && (d.move.joints[i].commands > b.move.joints[i].commands ==>
            d.move.joints[i].sent == Run(c, n, ins, j).arm.move.joints[i].tele)
  {
    hide Run, Unheld, NothingNew, Valid;
    RunAtRest(c, n, ins, i, j, m - 1);
    CommandsStayAtRest(c, n, ins, i, j, m);
  }

  // ----- the rebases of the code -----

  /** A hold that is accepted, and one that ends a gravity float, leaves a ready arm at rest at its
      pose. */
  lemma HoldRests(c: Config, a: Arm, inp: StepInput, i: nat)
    requires c.role.Follower? && a.ready && !RejectsDirectCommands(a) && HoldTakes(a, inp) && i < |a.move.joints|
    ensures AtRest(c, HoldNow(a, inp), i) && HoldNow(a, inp).move.joints[i].tele == a.move.joints[i].pos
  {
  }

  /** So does the restoring of normal operation after a commanded move, before its first tick; the
      commands of that same step already stay there. */
  lemma RestoreRests(c: Config, a: Arm, inp: StepInput, i: nat)
    requires Valid(c, a) && i < |a.move.joints| && a.ready && a.command.state.Moving? && !InRecovery(a)
    requires inp.normalMode || !a.floating
    requires SafeGoal(Cleared(a.move.joints[i]), inp.safety(i)) == a.move.joints[i].pos
    ensures var b := ActPhase(c, a, inp).arm;
      && AtRest(c, b, i) && |b.move.joints| == |a.move.joints| && b.move.joints[i].tele == a.move.joints[i].pos
      && (b.move.joints[i].commands > a.move.joints[i].commands ==> b.move.joints[i].sent == a.move.joints[i].pos)
  {
    hide OperateAsFollower;
    var r := Restore(c, a, inp);
    RestoreKeepsSpeeds(c, a, inp);
    OperateAtRest(c, r, inp, i);
  }

  /** And the start-up of an arm that is told not to move home. */
  lemma SkippedStartRests(c: Config, a: Arm, inp: StepInput, i: nat)
    requires Valid(c, a) && i < |a.move.joints| && !a.ready && a.command.state.Idle? && !InRecovery(a) && !a.floating
    requires c.skipHome
    ensures var b := ActPhase(c, a, inp).arm;
      AtRest(c, b, i) && b.move.joints[i].tele == a.move.joints[i].pos
  {
  }
}
