/** The synchronized follower slew: one scale, shared by all joints, bounds the
    speed of every joint, so that a multi-joint move is a straight line in joint
    space.  The functions of this module specify one control tick; the imperative
    loops are in `Devices.DeviceArm.SlewJoints`.  The lemmas say what a run of ticks does. */
module Slew {
  import opened Reals

  type Pose = seq<real>

  /** Speed limits are validated as positive when a joint is configured. */
  ghost predicate Limits(vel: Pose) { forall i :: 0 <= i < |vel| ==> vel[i] > 0.0 }

  /** The share of the way `delta` that one joint may cover in `dt`. */
  function JointScale(v: real, dt: real, delta: real): real
    requires delta > 0.0
  {
    v * dt / delta
  }

  /** The scale after the first `n` joints have been looked at. */
  function ScaleUpTo(prev: Pose, goal: Pose, vel: Pose, dt: real, n: nat): real
    requires |prev| == |goal| == |vel| && n <= |prev|
  {
    if n == 0 then 1.0 else
      var s := ScaleUpTo(prev, goal, vel, dt, n - 1);
      var delta := Abs(goal[n - 1] - prev[n - 1]);
      if delta > 0.0 then Min(s, JointScale(vel[n - 1], dt, delta)) else s
  }

  function Scale(prev: Pose, goal: Pose, vel: Pose, dt: real): real
    requires |prev| == |goal| == |vel|
  {
    ScaleUpTo(prev, goal, vel, dt, |prev|)
  }

  function Toward(from: real, to: real, s: real): real { from + Part(s, to - from) }

  /** Every joint moved by the same share of its own way. */
  function Moved(from: Pose, to: Pose, s: real): (p: Pose)
    requires |from| == |to|
    ensures |p| == |from|
    ensures forall i :: 0 <= i < |from| ==> p[i] == Toward(from[i], to[i], s)
  {
    seq(|from|, i requires 0 <= i < |from| => Toward(from[i], to[i], s))
  }

  /** The commands of one tick. */
  function Tick(prev: Pose, goal: Pose, vel: Pose, dt: real): (cmd: Pose)
    requires |prev| == |goal| == |vel|
    ensures |cmd| == |prev|
  {
    Moved(prev, goal, Scale(prev, goal, vel, dt))
  }

  // ----- independent reference: how long a pose is away from the goal -----

  /** The time a way takes at a given speed. */
  function Duration(way: real, v: real): (t: real)
    requires way >= 0.0 && v > 0.0
    ensures t >= 0.0
    ensures t == 0.0 <==> way == 0.0
    ensures t * v == way
  {
    DivMul(way, v);
    way / v
  }

  /** The time joint `i` needs at its own speed limit. */
  function Own(pose: Pose, goal: Pose, vel: Pose, i: nat): (t: real)
    requires |pose| == |goal| == |vel| && i < |pose| && Limits(vel)
    ensures t >= 0.0
  {
    Duration(Abs(goal[i] - pose[i]), vel[i])
  }

  /** The slowest of the first `n` joints. */
  function TimeToGoUpTo(pose: Pose, goal: Pose, vel: Pose, n: nat): (t: real)
    requires |pose| == |goal| == |vel| && n <= |pose| && Limits(vel)
    ensures t >= 0.0
  {
    if n == 0 then 0.0
    else Max(TimeToGoUpTo(pose, goal, vel, n - 1), Own(pose, goal, vel, n - 1))
  }

  function TimeToGo(pose: Pose, goal: Pose, vel: Pose): real
    requires |pose| == |goal| == |vel| && Limits(vel)
  {
    TimeToGoUpTo(pose, goal, vel, |pose|)
  }

  lemma {:induction false} TimeToGoCoversAll(pose: Pose, goal: Pose, vel: Pose, n: nat, i: nat)
    requires |pose| == |goal| == |vel| && i < n <= |pose| && Limits(vel)
    ensures Own(pose, goal, vel, i) <= TimeToGoUpTo(pose, goal, vel, n)
  {
    if i < n - 1 {
      TimeToGoCoversAll(pose, goal, vel, n - 1, i);
    }
  }

  lemma {:induction false} TimeToGoIsAttained(pose: Pose, goal: Pose, vel: Pose, n: nat) returns (i: nat)
    requires |pose| == |goal| == |vel| && n <= |pose| && Limits(vel)
    requires TimeToGoUpTo(pose, goal, vel, n) > 0.0
    ensures i < n && Own(pose, goal, vel, i) == TimeToGoUpTo(pose, goal, vel, n)
  {
    if TimeToGoUpTo(pose, goal, vel, n - 1) < TimeToGoUpTo(pose, goal, vel, n) {
      i := n - 1;
    } else {
      i := TimeToGoIsAttained(pose, goal, vel, n - 1);
    }
  }

  /** The share of a way of duration `t` that `dt` covers. */
  function Covered(dt: real, t: real): real
    requires dt > 0.0
  {
    if t <= dt then 1.0 else dt / t
  }

  lemma CoveredFacts(dt: real, t: real)
    requires dt > 0.0
    ensures 0.0 < Covered(dt, t) <= 1.0
    ensures t <= dt ==> Covered(dt, t) == 1.0
    ensures (1.0 - Covered(dt, t)) * t == if t <= dt then 0.0 else t - dt
    ensures t >= 0.0 ==> Covered(dt, t) * t <= dt
  {
    if t > dt {
      ShareOfOne(dt, t);
      DivMul(dt, t);
      var q := dt / t;
      assert (1.0 - q) * t == t - q * t;
    }
  }

  lemma CoveredOfSlower(dt: real, before: real, way: real, v: real)
    requires dt > 0.0 && before >= 0.0 && way > 0.0 && v > 0.0
    ensures Min(Covered(dt, before), JointScale(v, dt, way)) == Covered(dt, Max(before, Duration(way, v)))
  {
    var own := Duration(way, v);
    QuotientOfQuotient(way, v, dt);
    ShareOfOne(dt, own);
    if before > 0.0 {
      ShareOfOne(dt, before);
      ShareAntitone(dt, Min(before, own), Max(before, own));
    }
  }

  /** The scale is the share of the remaining time that `dt` covers. */
  lemma {:induction false} ScaleIsShare(prev: Pose, goal: Pose, vel: Pose, dt: real, n: nat)
    requires |prev| == |goal| == |vel| && Limits(vel) && dt > 0.0 && n <= |prev|
    ensures ScaleUpTo(prev, goal, vel, dt, n) == Covered(dt, TimeToGoUpTo(prev, goal, vel, n))
  {
    hide JointScale, Duration, Covered;
    if n == 0 {
      CoveredFacts(dt, 0.0);
    } else {
      ScaleIsShare(prev, goal, vel, dt, n - 1);
      var delta := Abs(goal[n - 1] - prev[n - 1]);
      if delta > 0.0 {
        CoveredOfSlower(dt, TimeToGoUpTo(prev, goal, vel, n - 1), delta, vel[n - 1]);
      }
    }
  }

  lemma DurationScales(way: real, v: real, rest: real)
    requires way >= 0.0 && v > 0.0 && rest >= 0.0
    ensures rest * way >= 0.0
    ensures Duration(rest * way, v) == rest * Duration(way, v)
  {
    ProductOfNonNegatives(rest, way);
    var a := Duration(rest * way, v);
    var b := rest * Duration(way, v);
    assert a * v == b * v;
    MulEqual(a, b, v);
  }

  lemma PartOfNothing(rest: real)
    ensures Part(rest, 0.0) == 0.0
  {
  }

  /** `next` has the share `rest` of the way left in every joint. */
  ghost predicate Shrunk(pose: Pose, next: Pose, goal: Pose, rest: real) {
    && |pose| == |next| == |goal|
    && forall i :: 0 <= i < |pose| ==> goal[i] - next[i] == rest * (goal[i] - pose[i])
  }

  lemma OwnScales(pose: Pose, next: Pose, goal: Pose, vel: Pose, i: nat, rest: real)
    requires Shrunk(pose, next, goal, rest) && |vel| == |pose| && i < |pose| && Limits(vel) && 0.0 <= rest
    ensures Own(next, goal, vel, i) == Part(rest, Own(pose, goal, vel, i))
  {
    AbsMul(rest, goal[i] - pose[i]);
    DurationScales(Abs(goal[i] - pose[i]), vel[i], rest);
  }

  lemma TickRest(from: real, to: real, s: real)
    ensures to - Toward(from, to, s) == (1.0 - s) * (to - from)
  {
  }

  lemma MaxScales(a: real, b: real, rest: real)
    requires rest >= 0.0
    ensures Max(Part(rest, a), Part(rest, b)) == Part(rest, Max(a, b))
  {
    MulMono(Min(a, b), Max(a, b), rest);
  }

  /** Moving every joint by the same share shortens the time to go by that share. */
  lemma {:induction false} TimeToGoScales(pose: Pose, next: Pose, goal: Pose, vel: Pose, rest: real, n: nat)
    requires |pose| == |next| == |goal| == |vel| && n <= |pose| && Limits(vel)
    requires Shrunk(pose, next, goal, rest) && 0.0 <= rest
    ensures TimeToGoUpTo(next, goal, vel, n) == Part(rest, TimeToGoUpTo(pose, goal, vel, n))
  {
    hide Own, Shrunk, Max, Part;
    if n == 0 {
      PartOfNothing(rest);
    } else {
      TimeToGoScales(pose, next, goal, vel, rest, n - 1);
      OwnScales(pose, next, goal, vel, n - 1, rest);
      var a, b := TimeToGoUpTo(pose, goal, vel, n - 1), Own(pose, goal, vel, n - 1);
      MaxScales(a, b, rest);
    }
  }

  lemma TickShrinks(prev: Pose, goal: Pose, vel: Pose, dt: real)
    requires |prev| == |goal| == |vel|
    ensures Shrunk(prev, Tick(prev, goal, vel, dt), goal, 1.0 - Scale(prev, goal, vel, dt))
  {
    hide Scale;
    var s := Scale(prev, goal, vel, dt);
    forall i | 0 <= i < |prev|
      ensures goal[i] - Tick(prev, goal, vel, dt)[i] == (1.0 - s) * (goal[i] - prev[i])
    {
      TickRest(prev[i], goal[i], s);
    }
  }

  /** A tick takes exactly `dt` off the time to go, or arrives. */
  lemma TickTakesDt(prev: Pose, goal: Pose, vel: Pose, dt: real)
    requires |prev| == |goal| == |vel| && Limits(vel) && dt > 0.0
    ensures TimeToGo(Tick(prev, goal, vel, dt), goal, vel) == Max(0.0, TimeToGo(prev, goal, vel) - dt)
  {
    hide Covered, Toward, Own, TimeToGoUpTo, ScaleUpTo, Shrunk, Tick;
    var t, rest := TimeToGo(prev, goal, vel), 1.0 - Scale(prev, goal, vel, dt);
    ScaleIsShare(prev, goal, vel, dt, |prev|);
    CoveredFacts(dt, t);
    assert rest == 1.0 - Covered(dt, t);
    assert rest * t == Max(0.0, t - dt);
    TickShrinks(prev, goal, vel, dt);
    TimeToGoScales(prev, Tick(prev, goal, vel, dt), goal, vel, rest, |prev|);
  }

  lemma WayMoved(from: real, way: real, s: real) returns (d: real)
    requires 0.0 <= s <= 1.0
    ensures Toward(from, from + way, s) == from + d && Abs(d) == Part(s, Abs(way))
    ensures 0.0 <= way ==> 0.0 <= d <= way
    ensures way <= 0.0 ==> way <= d <= 0.0
  {
    hide Part;
    PartOfWay(s, way);
    d := Part(s, way);
    assert from + way - from == way;
  }

  lemma TowardStaysBetween(from: real, to: real, s: real)
    requires 0.0 <= s <= 1.0
    ensures Min(from, to) <= Toward(from, to, s) <= Max(from, to)
    ensures Abs(Toward(from, to, s) - from) == Part(s, Abs(to - from))
  {
    hide Toward, Part;
    var d := WayMoved(from, to - from, s);
    assert from + (to - from) == to;
  }

  lemma OwnSpeed(way: real, v: real, s: real, t: real, dt: real)
    requires v > 0.0 && 0.0 <= s && s * t <= dt && way >= 0.0
    requires Duration(way, v) <= t
    ensures Part(s, way) <= v * dt
  {
    var own := Duration(way, v);
    MulMono(own, t, s);
    MulMono(s * own, dt, v);
    assert s * (own * v) == (s * own) * v;
  }

  /** No joint is commanded faster than its limit or past its goal, whatever the goal. */
  lemma TickWithinLimits(prev: Pose, goal: Pose, vel: Pose, dt: real, i: nat)
    requires |prev| == |goal| == |vel| && Limits(vel) && dt > 0.0 && i < |prev|
    ensures Abs(Tick(prev, goal, vel, dt)[i] - prev[i]) <= vel[i] * dt
    ensures Min(prev[i], goal[i]) <= Tick(prev, goal, vel, dt)[i] <= Max(prev[i], goal[i])
  {
    hide Covered, Toward, Duration, TimeToGoUpTo, ScaleUpTo, Abs, Min, Max;
    var t := TimeToGo(prev, goal, vel);
    var s := Scale(prev, goal, vel, dt);
    ScaleIsShare(prev, goal, vel, dt, |prev|);
    CoveredFacts(dt, t);
    TowardStaysBetween(prev[i], goal[i], s);
    TimeToGoCoversAll(prev, goal, vel, |prev|, i);
    OwnSpeed(Abs(goal[i] - prev[i]), vel[i], s, t, dt);
  }

  lemma WholeWay(from: real, to: real)
    ensures Toward(from, to, 1.0) == to
  {
  }

  // ----- runs of ticks toward a fixed goal -----

  function Sum(dts: seq<real>): real {
    if dts == [] then 0.0 else Sum(dts[..|dts| - 1]) + dts[|dts| - 1]
  }

  ghost predicate Advancing(dts: seq<real>) { forall k :: 0 <= k < |dts| ==> dts[k] > 0.0 }

  function Run(start: Pose, goal: Pose, vel: Pose, dts: seq<real>): (p: Pose)
    requires |start| == |goal| == |vel|
    ensures |p| == |start|
  {
    if dts == [] then start
    else Tick(Run(start, goal, vel, dts[..|dts| - 1]), goal, vel, dts[|dts| - 1])
  }

  lemma {:induction false} SumNonNegative(dts: seq<real>)
    requires Advancing(dts)
    ensures Sum(dts) >= 0.0
  {
    if dts != [] {
      SumNonNegative(dts[..|dts| - 1]);
    }
  }

  /** However the elapsed time is cut into ticks, exactly that time has been worked off. */
  lemma {:induction false} RunTimeToGo(start: Pose, goal: Pose, vel: Pose, dts: seq<real>)
    requires |start| == |goal| == |vel| && Limits(vel) && Advancing(dts)
    ensures TimeToGo(Run(start, goal, vel, dts), goal, vel)
         == Max(0.0, TimeToGo(start, goal, vel) - Sum(dts))
  {
    if dts != [] {
      var before := dts[..|dts| - 1];
      RunTimeToGo(start, goal, vel, before);
      SumNonNegative(before);
      TickTakesDt(Run(start, goal, vel, before), goal, vel, dts[|dts| - 1]);
    }
  }

  lemma NoTimeToGoIsArrival(pose: Pose, goal: Pose, vel: Pose)
    requires |pose| == |goal| == |vel| && Limits(vel)
    ensures TimeToGo(pose, goal, vel) == 0.0 <==> pose == goal
  {
    if TimeToGo(pose, goal, vel) == 0.0 {
      forall i | 0 <= i < |pose| ensures pose[i] == goal[i] {
        TimeToGoCoversAll(pose, goal, vel, |pose|, i);
      }
    } else {
      var i := TimeToGoIsAttained(pose, goal, vel, |pose|);
    }
  }

  /** A fixed goal is commanded exactly, precisely from the moment the time to go has elapsed. */
  lemma ArrivesExactlyOnTime(start: Pose, goal: Pose, vel: Pose, dts: seq<real>)
    requires |start| == |goal| == |vel| && Limits(vel) && Advancing(dts)
    ensures Run(start, goal, vel, dts) == goal <==> Sum(dts) >= TimeToGo(start, goal, vel)
  {
    RunTimeToGo(start, goal, vel, dts);
    NoTimeToGoIsArrival(Run(start, goal, vel, dts), goal, vel);
  }

  // ----- time optimality -----

  /** Any other controller: poses in which every joint obeys its own speed limit. */
  ghost predicate Admissible(path: seq<Pose>, vel: Pose, dts: seq<real>) {
    && |path| == |dts| + 1
    && (forall k :: 0 <= k < |path| ==> |path[k]| == |vel|)
    && forall k :: 0 <= k < |dts| ==> WithinLimits(path[k], path[k + 1], vel, dts[k])
  }

  ghost predicate WithinLimits(pose: Pose, next: Pose, vel: Pose, dt: real) {
    |pose| == |next| == |vel| && forall i :: 0 <= i < |vel| ==> Abs(next[i] - pose[i]) <= vel[i] * dt
  }

  lemma OwnDropsByDt(pose: Pose, next: Pose, goal: Pose, vel: Pose, dt: real, i: nat)
    requires |goal| == |vel| && Limits(vel) && dt > 0.0 && WithinLimits(pose, next, vel, dt) && i < |vel|
    ensures Own(next, goal, vel, i) >= Own(pose, goal, vel, i) - dt
  {
    var a, b := Abs(goal[i] - pose[i]), Abs(goal[i] - next[i]);
    assert a <= b + vel[i] * dt;
    DivMono(a, b + vel[i] * dt, vel[i]);
    DivAdd(b, vel[i] * dt, vel[i]);
    MulDiv(dt, vel[i]);
    assert 0.0 / vel[i] == 0.0;
  }

  /** In a tick, no controller takes more than `dt` off the time to go. */
  lemma NoFasterTick(pose: Pose, next: Pose, goal: Pose, vel: Pose, dt: real)
    requires |goal| == |vel| && Limits(vel) && dt > 0.0 && WithinLimits(pose, next, vel, dt)
    ensures TimeToGo(next, goal, vel) >= TimeToGo(pose, goal, vel) - dt
  {
    var t := TimeToGo(pose, goal, vel);
    if t > 0.0 {
      var i := TimeToGoIsAttained(pose, goal, vel, |pose|);
      OwnDropsByDt(pose, next, goal, vel, dt, i);
      TimeToGoCoversAll(next, goal, vel, |next|, i);
    }
  }

  /** At every moment the slew is at least as close, in time, as any admissible controller. */
  lemma {:induction false} SlewIsTimeOptimal(path: seq<Pose>, goal: Pose, vel: Pose, dts: seq<real>)
    requires |goal| == |vel| && Limits(vel) && Advancing(dts) && Admissible(path, vel, dts)
    ensures TimeToGo(Run(path[0], goal, vel, dts), goal, vel) <= TimeToGo(path[|dts|], goal, vel)
  {
    if dts != [] {
      var k := |dts| - 1;
      var before := dts[..k];
      var prefix := path[..k + 1];
      assert Admissible(prefix, vel, before) by {
        forall j | 0 <= j < k ensures WithinLimits(prefix[j], prefix[j + 1], vel, before[j]) {
          assert WithinLimits(path[j], path[j + 1], vel, dts[j]);
        }
      }
      SlewIsTimeOptimal(prefix, goal, vel, before);
      TickTakesDt(Run(path[0], goal, vel, before), goal, vel, dts[k]);
      NoFasterTick(path[k], path[k + 1], goal, vel, dts[k]);
    }
  }

  /** Hence no admissible controller reaches the goal before the slew does. */
  lemma NobodyArrivesSooner(path: seq<Pose>, goal: Pose, vel: Pose, dts: seq<real>)
    requires |goal| == |vel| && Limits(vel) && Advancing(dts) && Admissible(path, vel, dts)
    ensures path[|dts|] == goal ==> Run(path[0], goal, vel, dts) == goal
    ensures path[|dts|] == goal ==> Sum(dts) >= TimeToGo(path[0], goal, vel)
  {
    SlewIsTimeOptimal(path, goal, vel, dts);
    NoTimeToGoIsArrival(Run(path[0], goal, vel, dts), goal, vel);
    NoTimeToGoIsArrival(path[|dts|], goal, vel);
    ArrivesExactlyOnTime(path[0], goal, vel, dts);
  }

  // ----- the commands stay on the straight segment -----

  /** The share of the way that has been covered after `elapsed`. */
  function Share(t: real, elapsed: real): real
    requires t >= 0.0 && elapsed >= 0.0
  {
    if elapsed >= t then 1.0 else elapsed / t
  }

  lemma ShareStep(t: real, elapsed: real, dt: real)
    requires t >= 0.0 && elapsed >= 0.0 && dt > 0.0
    ensures var s := Covered(dt, Max(0.0, t - elapsed));
            1.0 - Share(t, elapsed + dt) == (1.0 - s) * (1.0 - Share(t, elapsed))
  {
    var left := Max(0.0, t - elapsed);
    if left > dt {
      var a, b, s := elapsed / t, (elapsed + dt) / t, dt / left;
      DivMul(elapsed, t);
      DivMul(elapsed + dt, t);
      DivMul(dt, left);
      assert (1.0 - a) * t == left;
      assert ((1.0 - s) * (1.0 - a)) * t == (1.0 - s) * left;
      assert (1.0 - b) * t == left - dt;
      MulEqual((1.0 - s) * (1.0 - a), 1.0 - b, t);
    }
  }

  lemma SegmentStep(from: real, to: real, here: real, a: real, b: real, s: real)
    requires here == Toward(from, to, a) && 1.0 - b == (1.0 - s) * (1.0 - a)
    ensures Toward(here, to, s) == Toward(from, to, b)
  {
    TickRest(from, to, a);
    TickRest(here, to, s);
    TickRest(from, to, b);
    assert (1.0 - s) * ((1.0 - a) * (to - from)) == (1.0 - b) * (to - from);
  }

  lemma RunAtStart(start: Pose, goal: Pose, vel: Pose)
    requires |start| == |goal| == |vel| && Limits(vel)
    ensures var s := Share(TimeToGo(start, goal, vel), 0.0);
            forall i :: 0 <= i < |start| ==> start[i] == Toward(start[i], goal[i], s)
  {
    NoTimeToGoIsArrival(start, goal, vel);
    var t := TimeToGo(start, goal, vel);
    assert t > 0.0 ==> 0.0 / t == 0.0;
  }

  /** Every command of a run is the same affine combination of start and goal in all joints. */
  lemma {:induction false} RunStaysOnSegment(start: Pose, goal: Pose, vel: Pose, dts: seq<real>)
    requires |start| == |goal| == |vel| && Limits(vel) && Advancing(dts)
    ensures Sum(dts) >= 0.0
    ensures var s := Share(TimeToGo(start, goal, vel), Sum(dts));
            forall i :: 0 <= i < |start| ==> Run(start, goal, vel, dts)[i] == Toward(start[i], goal[i], s)
  {
    hide Covered, Toward, Own, TimeToGoUpTo, ScaleUpTo;
    SumNonNegative(dts);
    var t := TimeToGo(start, goal, vel);
    if dts == [] {
      RunAtStart(start, goal, vel);
    } else {
      var k := |dts| - 1;
      var before := dts[..k];
      SumNonNegative(before);
      RunStaysOnSegment(start, goal, vel, before);
      RunTimeToGo(start, goal, vel, before);
      var here := Run(start, goal, vel, before);
      ScaleIsShare(here, goal, vel, dts[k], |here|);
      ShareStep(t, Sum(before), dts[k]);
      var a, b, s := Share(t, Sum(before)), Share(t, Sum(dts)), Scale(here, goal, vel, dts[k]);
      assert 1.0 - b == (1.0 - s) * (1.0 - a);
      forall i | 0 <= i < |start| ensures Run(start, goal, vel, dts)[i] == Toward(start[i], goal[i], b) {
        SegmentStep(start[i], goal[i], here[i], a, b, s);
      }
    }
  }
}
