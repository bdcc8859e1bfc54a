/** The no-jump bound with the strict history: the last command and the poses measured after it was
    sent.  Besides a pose that is not read, a restart of the slew after the command of the same step
    makes a joint leave it, because that pose was measured before the command. */
module StrictHistory {
  import opened Wrappers
  import opened Control
  import opened Reals
  import opened ReadyMove
  import opened Device
  import opened ControlNode
  import opened JointStep
  import opened NoJump
  import ReadTriage
  import Slew

  // ----- the strict bound -----

  /** From its strict history, the command of a turn to a joint is strictly close exactly unless it
      starts from a pose outside of it; and the joint is in its history afterwards exactly unless the
      slew was started over from such a pose, where a command makes every earlier pose such a one. */
  lemma TurnIsStrictIff(c: Config, n: Node, inp: NodeInput, i: nat)
    requires Valid(c, n.arm) && n.arm.topic.running && i < |n.arm.move.joints| && Follows(n.arm.move.joints[i], true)
    ensures HasJoint(c, n, inp, i)
    ensures var m, k := Measured(n.arm.move.joints[i], inp.step.poses(i)), Turn(c, n, inp).arm.move.joints[i];
      if CommandsJoint(c, n, inp, i) then
        && (Origin(n, inp, i) in m.since <==> !CommandsFromPose(n.arm, inp.step, i) || m.pos in m.since)
        && (Origin(n, inp, i) in m.since ==> Near(m.since, k.sent, Reach(c, n.arm, inp.step, i)))
        && (Follows(k, true) <==> !RestartsAfterCommand(c, n.arm, inp.step) || k.pos == k.sent)
      else Follows(k, true) <==> !Restarts(c, n.arm, inp.step) || m.pos in m.since
  {
    hide Turn, Step, Reach, Restarts, CommandsFromPose, RestartsAfterCommand, GetsToAct, Acting, Near;
    TurnIs(c, n, inp);
    StepExactly(c, n.arm, inp.step, i);
    TurnKeepsToHistoryIff(c, n, inp, i, true);
    HistoryGrows(n.arm.move.joints[i], inp.step.poses(i), true);
    var k := Turn(c, n, inp).arm.move.joints[i];
    if CommandsJoint(c, n, inp, i) && Origin(n, inp, i) in Measured(n.arm.move.joints[i], inp.step.poses(i)).since {
      NearTo(Measured(n.arm.move.joints[i], inp.step.poses(i)).since, Origin(n, inp, i), k.sent,
             Reach(c, n.arm, inp.step, i));
    }
  }

  lemma NearTo(places: set<real>, x: real, c: real, reach: real)
    requires x in places && Abs(c - x) <= reach
    ensures Near(places, c, reach)
  {
  }

  /** A joint that is measured in the turn stays strictly close. */
  lemma TurnIsStrict(c: Config, n: Node, inp: NodeInput, i: nat)
    requires Valid(c, n.arm) && i < |n.arm.move.joints| && Follows(n.arm.move.joints[i], true)
    requires inp.step.poses(i).Some?
    ensures HasJoint(c, n, inp, i)
    ensures CommandsJoint(c, n, inp, i) ==>
      Near(Measured(n.arm.move.joints[i], inp.step.poses(i)).since, Turn(c, n, inp).arm.move.joints[i].sent,
           Reach(c, n.arm, inp.step, i))
    ensures !CommandsJoint(c, n, inp, i) ==> Follows(Turn(c, n, inp).arm.move.joints[i], true)
  {
    hide Turn, Step, Reach, Restarts, CommandsFromPose, RestartsAfterCommand, Acting, Near;
    TurnKeepsToHistoryIff(c, n, inp, i, true);
    if n.arm.topic.running {
      TurnIsStrictIff(c, n, inp, i);
    } else {
      TurnIs(c, n, inp);
    }
  }

  /** A joint commanded in a step is in its strict history afterwards exactly when the slew was not
      restarted after the command, or the joint was measured right where it was commanded to be. */
  lemma StrictAfterCommandIff(c: Config, a: Arm, inp: StepInput, i: nat)
    requires Valid(c, a) && i < |a.move.joints|
    requires |Step(c, a, inp).arm.move.joints| == |a.move.joints|
    requires Step(c, a, inp).arm.move.joints[i].commands > a.move.joints[i].commands
    ensures var k := Step(c, a, inp).arm.move.joints[i];
      Follows(k, true) <==> !RestartsAfterCommand(c, a, inp) || k.pos == k.sent
  {
    hide Step, Reach, Restarts, CommandsFromPose, RestartsAfterCommand, GetsToAct, Acting;
    StepExactly(c, a, inp, i);
  }

  /** In turn `k` the joint is measured, and the slew is not restarted after a command. */
  ghost predicate ReadWithoutRestart(c: Config, n: Node, ins: nat -> NodeInput, i: nat, k: nat) {
    ins(k).step.poses(i).Some? && !RestartsAfterCommand(c, Run(c, n, ins, k).arm, ins(k).step)
  }

  /** Over a whole run: as long as the joint is measured in every turn and the slew is not restarted
      after a command, every command is within reach of the last one or of a pose measured since. */
  lemma RunIsStrict(c: Config, n: Node, ins: nat -> NodeInput, i: nat, m: nat)
    requires Valid(c, n.arm) && i < |n.arm.move.joints| && Follows(n.arm.move.joints[i], true)
    requires forall k: nat :: k <= m ==> ReadWithoutRestart(c, n, ins, i, k)
    ensures NearAt(c, n, ins, i, m, true)
  {
    hide Run, Turn, Acting, Near, Reach, NearAt, LeavesHistory, Valid;
    forall k: nat | k <= m ensures !LeavesAt(c, n, ins, i, k, true) {
      RunStaysValid(c, n, ins, k);
      assert ReadWithoutRestart(c, n, ins, i, k);
      ReadNeverLeaves(c, Run(c, n, ins, k), ins(k), i);
    }
    NeverLeavesNeverJumps(c, n, ins, i, m, true);
  }

  lemma ReadNeverLeaves(c: Config, n: Node, inp: NodeInput, i: nat)
    requires Valid(c, n.arm) && i < |n.arm.move.joints|
    requires inp.step.poses(i).Some? && !RestartsAfterCommand(c, n.arm, inp.step)
    ensures HasJoint(c, n, inp, i) && !LeavesHistory(c, n, inp, i, true)
  {
    hide Turn, Acting, Reach, Restarts, CommandsFromPose, RestartsAfterCommand;
    TurnKeepsToHistoryIff(c, n, inp, i, true);
  }

  // ----- the strict bound of a tracking arm, exactly -----

  /** Whatever its targets and protections are, and whenever the tick comes, joint `i` stays within
      its speed limit from its strict history. */
  ghost predicate TracksStrictly(c: Config, a: Arm, i: nat)
    requires c.frequency > 0 && i < |a.move.joints|
  {
    forall inp: StepInput :: TickIsStrict(c, a, inp, i)
  }

  ghost predicate TickIsStrict(c: Config, a: Arm, inp: StepInput, i: nat)
    requires c.frequency > 0 && i < |a.move.joints|
  {
    var j, k := a.move.joints[i], OperateAsFollower(c, a, inp).arm.move.joints[i];
    k.commands > j.commands ==> Near(j.since, k.sent, Covers(j.velMax, SlewTime(c, a, inp)))
  }

  /** A tick in which joint `i` is held where it fell behind, at `goal`, and the others where they are. */
  function HeldAt(js: seq<Joint>, i: nat, goal: real): StepInput {
    var nothing := (k: nat) => None;
    var fine := (k: nat) => Success;
    var read := ReadTriage.Verdict(Success, {});
    StepInput(nothing, read, true, true, true, 0, 0, 0, 0, 0.0, 0.0, 0.0, Success, fine, (k: nat) => false,
              (k: nat) => Safety(false, Some(if k == i then goal else if k < |js| then js[k].prev else 0.0)),
              false, Success, Success, Success, Success, [], None, None, Success, false,
              EffectorInput(nothing, read, fine, Success, Success))
  }

  lemma FullScale(v: real, dt: real)
    requires v > 0.0 && dt > 0.0
    ensures Covers(v, dt) > 0.0 && Slew.JointScale(v, dt, Covers(v, dt)) == 1.0
  {
    MulPositive(v, dt);
    MulDiv(1.0, v * dt);
  }

  lemma {:induction false} NoScaling(js: seq<Joint>, i: nat, goal: real, dt: real, n: nat)
    requires n <= |js| && i < |js| && dt > 0.0 && js[i].velMax > 0.0
    requires Abs(goal - js[i].prev) == Covers(js[i].velMax, dt)
    ensures Slew.ScaleUpTo(Previous(js), Goals(js, HeldAt(js, i, goal).safety), Speeds(js), dt, n) == 1.0
  {
    hide Covers, Slew.JointScale;
    if n > 0 {
      NoScaling(js, i, goal, dt, n - 1);
      FullScale(js[i].velMax, dt);
    }
  }

  lemma {:induction false} AllAttempted(codes: nat -> ReturnCode, n: nat)
    requires forall k: nat :: codes(k).Success?
    ensures Attempts(codes, n) == n
  {
    if n > 0 {
      AllAttempted(codes, n - 1);
    }
  }

  /** In such a tick joint `i` is commanded right to its goal. */
  lemma CommandedToGoal(c: Config, a: Arm, i: nat, goal: real)
    requires Valid(c, a) && i < |a.move.joints| && !a.floating
    requires var inp := HeldAt(a.move.joints, i, goal);
      && SlewTime(c, a, inp) > 0.0
      && Abs(goal - a.move.joints[i].prev) == Covers(a.move.joints[i].velMax, SlewTime(c, a, inp))
    ensures var k := OperateAsFollower(c, a, HeldAt(a.move.joints, i, goal)).arm.move.joints[i];
      k.commands == a.move.joints[i].commands + 1 && k.sent == goal
  {
    hide SlewTime, Slew.ScaleUpTo, Slew.Toward, Attempts, LoopCode, Covers;
    var js := a.move.joints;
    var inp := HeldAt(js, i, goal);
    NoScaling(js, i, goal, SlewTime(c, a, inp), |js|);
    AllAttempted(inp.codes, |js|);
    Slew.WholeWay(js[i].prev, goal);
  }

  /** From its strict history a joint tracks strictly. */
  lemma TracksFromHistory(c: Config, a: Arm, i: nat)
    requires Valid(c, a) && i < |a.move.joints| && Follows(a.move.joints[i], true)
    ensures TracksStrictly(c, a, i)
  {
    hide OperateAsFollower, SlewTime, Covers;
    forall inp: StepInput ensures TickIsStrict(c, a, inp, i) {
      TickTimeIsPositive(c, a, inp);
      OperateTargets(c, a, inp, i);
      assert a.move.joints[i].prev in a.move.joints[i].since;
    }
  }

  lemma OperateTargets(c: Config, a: Arm, inp: StepInput, i: nat)
    requires Valid(c, a) && i < |a.move.joints| && SlewTime(c, a, inp) > 0.0
    ensures var b := OperateAsFollower(c, a, inp).arm;
      && |b.move.joints| == |a.move.joints|
      && (b.move.joints[i].commands > a.move.joints[i].commands ==>
            Abs(b.move.joints[i].sent - a.move.joints[i].prev) <= Covers(a.move.joints[i].velMax, SlewTime(c, a, inp)))
  {
    hide Slew.Tick, Attempts, LoopCode, SlewTime;
    var js := a.move.joints;
    var dt := SlewTime(c, a, inp);
    Slew.TickWithinLimits(Previous(js), Goals(js, inp.safety), Speeds(js), dt, i);
    var targets := Slew.Tick(Previous(js), Goals(js, inp.safety), Speeds(js), dt);
    assert Abs(targets[i] - js[i].prev) <= Covers(js[i].velMax, dt);
  }

  /** A joint whose history is its last command, as it is right after the command and for as long as
      the joint is not read, tracks strictly exactly when its slew is still at that command. */
  lemma TracksStrictlyIff(c: Config, a: Arm, i: nat)
    requires Valid(c, a) && i < |a.move.joints| && !a.floating
    requires a.move.joints[i].since == {a.move.joints[i].sent}
    ensures TracksStrictly(c, a, i) <==> a.move.joints[i].prev == a.move.joints[i].sent
  {
    hide OperateAsFollower, SlewTime, Covers, HeldAt;
    var j := a.move.joints[i];
    if j.prev == j.sent {
      TracksFromHistory(c, a, i);
    } else {
      var inp0 := HeldAt(a.move.joints, i, 0.0);
      var dt := SlewTime(c, a, inp0);
      TickTimeIsPositive(c, a, inp0);
      CoversPositive(j.velMax, dt);
      var goal := if j.prev > j.sent then j.prev + Covers(j.velMax, dt) else j.prev - Covers(j.velMax, dt);
      var inp := HeldAt(a.move.joints, i, goal);
      SameTickTime(c, a, i, 0.0, goal);
      CommandedToGoal(c, a, i, goal);
      assert Abs(goal - j.sent) > Covers(j.velMax, dt);
      assert !TickIsStrict(c, a, inp, i);
    }
  }

  lemma CoversPositive(v: real, dt: real)
    requires v > 0.0 && dt > 0.0
    ensures Covers(v, dt) > 0.0
  {
    MulPositive(v, dt);
  }

  lemma SameTickTime(c: Config, a: Arm, i: nat, x: real, y: real)
    requires c.frequency > 0
    ensures SlewTime(c, a, HeldAt(a.move.joints, i, x)) == SlewTime(c, a, HeldAt(a.move.joints, i, y))
  {
  }
}
