/** Where the protections let a follower go: the goal of the slew, said without the code's own
    function, and what a tick and a whole turn do about it. */
module Protection {
  import opened Wrappers
  import opened Reals
  import opened ReadyMove
  import opened Device
  import opened ControlNode
  import opened JointStep
  import Rest
  import Slew

  predicate InRange(j: Joint, x: real) { j.posMin <= x <= j.posMax }

  /** `g` is where the joint may go: its buffered target; the point of its range nearest to the
      target, when the protection of the limits is on and the target is outside; and otherwise, where
      it fell behind, the place it is held at. */
  ghost predicate Due(j: Joint, s: Safety, g: real) {
    if s.exceeded && !InRange(j, j.tele) then
      InRange(j, g) && forall x :: InRange(j, x) ==> Abs(g - j.tele) <= Abs(x - j.tele)
    else g == match s.behind case Some(held) => held case None => j.tele
  }

  lemma DueIsSafeGoal(j: Joint, s: Safety, g: real)
    requires j.posMin <= j.posMax
    ensures Due(j, s, g) <==> g == SafeGoal(j, s)
  {
    var nearest := if j.tele > j.posMax then j.posMax else j.posMin;
    if s.exceeded && !InRange(j, j.tele) && InRange(j, g) {
      assert InRange(j, nearest);
      assert Abs(g - j.tele) <= Abs(nearest - j.tele) ==> g == nearest;
    }
  }

  /** The limits of every joint as they are validated at start-up. */
  ghost predicate Ranges(a: Arm) {
    forall i :: 0 <= i < |a.move.joints| ==> a.move.joints[i].posMin <= a.move.joints[i].posMax
  }

  ghost predicate AllDue(js: seq<Joint>, safety: nat -> Safety, goals: seq<real>) {
    |goals| == |js| && forall i :: 0 <= i < |js| ==> Due(js[i], safety(i), goals[i])
  }

  lemma AllDueAre(js: seq<Joint>, safety: nat -> Safety, goals: seq<real>)
    requires AllDue(js, safety, goals)
    requires forall i :: 0 <= i < |js| ==> js[i].posMin <= js[i].posMax
    ensures goals == Goals(js, safety)
  {
    hide Due, SafeGoal;
    forall i | 0 <= i < |js| ensures goals[i] == SafeGoal(js[i], safety(i)) {
      DueIsSafeGoal(js[i], safety(i), goals[i]);
    }
  }

  /** The time a tick makes up for: that since the slew clock was last set, at least a nanosecond, and
      one nominal period when it never was. */
  predicate TickTime(c: Config, clock: Option<real>, now: real, dt: real) {
    match clock
    case None => dt * c.frequency as real == 1.0
    case Some(t) => dt >= 0.000000001 && (if now - t >= 0.000000001 then dt == now - t else dt == 0.000000001)
  }

  lemma SlewTimeIs(c: Config, a: Arm, inp: StepInput)
    requires c.frequency > 0
    ensures TickTime(c, a.slewClock, inp.slewSec, SlewTime(c, a, inp))
  {
    DivMul(1.0, c.frequency as real);
  }

  lemma OnlyTickTime(c: Config, clock: Option<real>, now: real, x: real, y: real)
    requires c.frequency > 0 && TickTime(c, clock, now, x) && TickTime(c, clock, now, y)
    ensures x == y
  {
    if clock.None? {
      MulEqual(x, y, c.frequency as real);
    }
  }

  /** The command `to` of a joint that was last commanded to `from`, when the time to go of the whole
      arm is `left`: on its way to the goal, no faster than its limit, and there in time. */
  predicate Heads(from: real, to: real, goal: real, v: real, dt: real, left: real) {
    && Min(from, goal) <= to <= Max(from, goal)
    && Abs(to - from) <= v * dt
    && (left <= dt ==> to == goal)
    && (left > dt ==> Abs(to - from) * left == dt * Abs(goal - from))
  }

  /** What a joint was not commanded it keeps; what it was commanded heads for where it may go. */
  ghost predicate Headed(js: seq<Joint>, ks: seq<Joint>, goals: seq<real>, dt: real, i: nat)
    requires |js| == |ks| == |goals| && i < |js| && Slew.Limits(Speeds(js))
  {
    && (ks[i].commands == js[i].commands ==> ks[i].prev == js[i].prev)
    && (ks[i].commands != js[i].commands ==>
          && ks[i].commands == js[i].commands + 1 && ks[i].prev == ks[i].sent
          && Heads(js[i].prev, ks[i].sent, goals[i], js[i].velMax, dt,
                   Slew.TimeToGo(Previous(js), goals, Speeds(js))))
  }

  lemma ShareOfWay(from: real, goal: real, dt: real, left: real)
    requires dt > 0.0 && left > dt
    ensures Abs(Slew.Toward(from, goal, Slew.Covered(dt, left)) - from) * left == dt * Abs(goal - from)
  {
    var s := Slew.Covered(dt, left);
    Slew.CoveredFacts(dt, left);
    Slew.TowardStaysBetween(from, goal, s);
    DivMul(dt, left);
    var way := Abs(goal - from);
    assert (s * way) * left == (s * left) * way;
  }

  /** One tick of the slew. */
  lemma TickHeads(prev: seq<real>, goals: seq<real>, vel: seq<real>, dt: real, i: nat)
    requires |prev| == |goals| == |vel| && Slew.Limits(vel) && dt > 0.0 && i < |prev|
    ensures Heads(prev[i], Slew.Tick(prev, goals, vel, dt)[i], goals[i], vel[i], dt, Slew.TimeToGo(prev, goals, vel))
  {
    hide Slew.Toward, Slew.Covered, Slew.TimeToGoUpTo, Slew.ScaleUpTo, Abs, Min, Max;
    var left := Slew.TimeToGo(prev, goals, vel);
    Slew.TickWithinLimits(prev, goals, vel, dt, i);
    Slew.ScaleIsShare(prev, goals, vel, dt, |prev|);
    Slew.CoveredFacts(dt, left);
    if left > dt {
      ShareOfWay(prev[i], goals[i], dt, left);
    } else {
      Slew.WholeWay(prev[i], goals[i]);
    }
  }

  /** What operating a follower does to joint `i`, from the places its joints may go. */
  lemma OperateHeads(c: Config, a: Arm, inp: StepInput, goals: seq<real>, dt: real, i: nat)
    requires Valid(c, a) && Ranges(a) && !a.floating && i < |a.move.joints|
    requires AllDue(a.move.joints, inp.safety, goals) && TickTime(c, a.slewClock, inp.slewSec, dt)
    ensures |OperateAsFollower(c, a, inp).arm.move.joints| == |a.move.joints| && Slew.Limits(Speeds(a.move.joints))
    ensures Headed(a.move.joints, OperateAsFollower(c, a, inp).arm.move.joints, goals, dt, i)
    ensures OperateAsFollower(c, a, inp).arm.move.joints[i].commands != a.move.joints[i].commands ==>
              OperateAsFollower(c, a, inp).arm.slewClock == Some(inp.slewSec)
  {
    hide Slew.Tick, Attempts, LoopCode, SlewTime, Heads, AllDue, TickTime;
    var js := a.move.joints;
    Rest.Speedy(c, a);
    AllDueAre(js, inp.safety, goals);
    SlewTimeIs(c, a, inp);
    OnlyTickTime(c, a.slewClock, inp.slewSec, dt, SlewTime(c, a, inp));
    TickTimeIsPositive(c, a, inp);
    TickHeads(Previous(js), goals, Speeds(js), dt, i);
  }

  // ----- a whole turn -----

  /** The joints a turn works with: measured, and locked where they stalled. */
  function AsRead(n: Node, inp: NodeInput): (js: seq<Joint>)
    ensures |js| == |n.arm.move.joints|
    ensures forall i :: 0 <= i < |js| ==> js[i].prev == n.arm.move.joints[i].prev
    ensures forall i :: 0 <= i < |js| ==> js[i].velMax == n.arm.move.joints[i].velMax
    ensures forall i :: 0 <= i < |js| ==>
              js[i].pos == match inp.step.poses(i) case Some(x) => x case None => n.arm.move.joints[i].pos
    ensures forall i :: 0 <= i < |js| ==>
              js[i].tele == if inp.step.stalled(i) && inp.step.poses(i).Some? then inp.step.poses(i).value
                            else n.arm.move.joints[i].tele
  {
    ReadJoints(n.arm.move.joints, inp.step)
  }

  lemma ActingReads(c: Config, n: Node, inp: NodeInput)
    requires Rest.Operating(c, n.arm)
    ensures var b := Acting(n.arm, inp.step);
      && Rest.Operating(c, b) && b.move.joints == AsRead(n, inp) && b.slewClock == n.arm.slewClock
      && (Ranges(n.arm) ==> Ranges(b))
  {
    hide ProgressPhase;
    var r := ReadPhase(n.arm, inp.step).arm;
    assert PreparePhase(r, inp.step) == r;
    ProgressStill(r, inp.step);
    Rest.ProgressKeepsFloating(r, inp.step);
  }

  lemma SameWay(c: Config, a: Arm, n: Node, inp: NodeInput)
    requires a.move.joints == AsRead(n, inp)
    ensures Previous(a.move.joints) == Previous(n.arm.move.joints)
    ensures Speeds(a.move.joints) == Speeds(n.arm.move.joints)
  {
  }

  /** A follower in normal operation: every command of a turn heads from the last command for where
      the joint may go, whatever else the turn does. */
  lemma TurnHeads(c: Config, n: Node, inp: NodeInput, goals: seq<real>, dt: real, i: nat)
    requires Valid(c, n.arm) && Ranges(n.arm) && Rest.Operating(c, n.arm) && n.arm.topic.running
    requires i < |n.arm.move.joints|
    requires AllDue(AsRead(n, inp), inp.step.safety, goals) && TickTime(c, n.arm.slewClock, inp.step.slewSec, dt)
    ensures |Turn(c, n, inp).arm.move.joints| == |n.arm.move.joints| && Slew.Limits(Speeds(n.arm.move.joints))
    ensures var j, k := n.arm.move.joints[i], Turn(c, n, inp).arm.move.joints[i];
      k.commands != j.commands ==>
        && k.commands == j.commands + 1
        && Heads(j.prev, k.sent, goals[i], j.velMax, dt,
                 Slew.TimeToGo(Previous(n.arm.move.joints), goals, Speeds(n.arm.move.joints)))
  {
    hide Step, Acting, Turn, OperateAsFollower, FinishPhase, AllDue, TickTime, Heads, PreparePhase, ActPhase, ReadPhase,
         GetsToAct, AsRead, Valid;
    var a, s := n.arm, inp.step;
    ActingReads(c, n, inp);
    var b := Acting(a, s);
    ActingIsValid(c, a, s);
    SameWay(c, b, n, inp);
    Rest.Speedy(c, a);
    Rest.ActIsOperate(c, b, s);
    OperateHeads(c, b, s, goals, dt, i);
    var d := OperateAsFollower(c, b, s).arm;
    FinishStill(c, d, s, i);
    TurnIs(c, n, inp);
    StepIs(c, a, s);
    ReadStill(c, n, inp, i);
  }

  /** Up to the time it acts, such an arm is not commanded. */
  lemma ReadStill(c: Config, n: Node, inp: NodeInput, i: nat)
    requires Rest.Operating(c, n.arm) && i < |n.arm.move.joints|
    ensures var r := ReadPhase(n.arm, inp.step).arm;
      && |r.move.joints| == |n.arm.move.joints| && PreparePhase(r, inp.step).move == r.move
      && r.move.joints[i].commands == n.arm.move.joints[i].commands == AsRead(n, inp)[i].commands
  {
  }
}
