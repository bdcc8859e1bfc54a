/** The alignment loop before an engagement: the follower is steered towards the leader in steps
    of bounded size, one per period, and every refusal comes before a command. */
module Alignment {
  import opened Wrappers
  import opened Reals

  const PERIOD := 0.01

  datatype Limits = Limits(jointVelocity: real, effectorVelocity: real, minDuration: real, maxDuration: real,
                           alignmentError: real, effectorError: real, leaderDrift: real)

  datatype Sample = Sample(names: seq<string>, position: seq<real>, effector: Option<real>)

  predicate WellFormed(s: Sample) {
    |s.position| == |s.names| && (s.effector.Some? ==> 0.0 <= s.effector.value <= 1.0)
  }

  datatype Command = Command(position: seq<real>, effector: Option<real>)

  /** What one turn of the loop finds: whether it was cancelled at its top or after the states were
      read, the clock at its top and when it plans its wait, and the fresh states, if any. */
  datatype Tick = Tick(cancelled: bool, now: real, leader: Option<Sample>, follower: Option<Sample>,
                       cancelledLater: bool, cancelledAfter: bool, planned: real)

  datatype Outcome = Unfinished | Aligned | Cancelled | TimedOut | Stale | Mismatched | Discontinuous | NoGripper

  // ----- specification -----

  function Clip(x: real, bound: real): real {
    if x > bound then bound else if x < -bound then -bound else x
  }

  function Steered(from: real, to: real, step: real): real { from + Clip(to - from, step) }

  function SteeredAll(from: seq<real>, to: seq<real>, step: real): (r: seq<real>)
    requires |from| == |to|
    ensures |r| == |from|
    ensures forall i :: 0 <= i < |from| ==> r[i] == Steered(from[i], to[i], step)
  {
    seq(|from|, i requires 0 <= i < |from| => Steered(from[i], to[i], step))
  }

  function Gap(a: seq<real>, b: seq<real>, n: nat): (g: real)
    requires n <= |a| == |b|
    ensures g >= 0.0 && forall i :: 0 <= i < n ==> Abs(a[i] - b[i]) <= g
  {
    if n == 0 then 0.0 else Max(Gap(a, b, n - 1), Abs(a[n - 1] - b[n - 1]))
  }

  /** The command that follows `c` when the leader is at `s`. */
  function NextCommand(l: Limits, c: Command, s: Sample): Command
    requires |c.position| == |s.position|
  {
    Command(SteeredAll(c.position, s.position, l.jointVelocity * PERIOD),
            if s.effector.None? || c.effector.None? then c.effector
            else Some(Steered(c.effector.value, s.effector.value, l.effectorVelocity * PERIOD)))
  }

  /** Why a turn ends the loop, before it sends anything. */
  function Judge(l: Limits, started: real, gripper: bool, previous: Sample, t: Tick): Outcome
    requires WellFormed(previous)
    requires t.leader.Some? ==> WellFormed(t.leader.value)
    requires t.follower.Some? ==> WellFormed(t.follower.value)
    requires t.leader.Some? ==> t.leader.value.names == previous.names
  {
    if t.cancelled then Cancelled
    else if t.now - started >= l.maxDuration then TimedOut
    else if t.cancelledLater then Cancelled
    else if t.leader.None? || t.follower.None? then Stale
    else
      var leader, follower := t.leader.value, t.follower.value;
      if leader.names != follower.names || leader.effector.Some? != follower.effector.Some? then Mismatched
      else if Gap(leader.position, previous.position, |leader.position|) > l.leaderDrift then Discontinuous
      else if t.now - started >= l.minDuration
           && Gap(follower.position, leader.position, |leader.position|) <= l.alignmentError
           && (leader.effector.Some? ==> Abs(follower.effector.value - leader.effector.value) <= l.effectorError)
      then Aligned
      else if leader.effector.Some? && !gripper then NoGripper
      else Unfinished
  }

  // ----- what the outcomes mean -----

  /** As the configuration demands of every limit. */
  predicate Positive(l: Limits) {
    l.leaderDrift > 0.0 && l.alignmentError > 0.0 && l.effectorError > 0.0
  }

  predicate Apart(a: seq<real>, b: seq<real>, bound: real) {
    exists i :: 0 <= i < |a| && i < |b| && Abs(a[i] - b[i]) > bound
  }

  /** Nothing stands in the way of a command: the alignment goes on and is in time, both states are
      fresh and match, and no joint of the leader has moved by more than it can plausibly have. */
  predicate Clear(l: Limits, started: real, previous: Sample, t: Tick) {
    && !t.cancelled && !t.cancelledLater && t.now - started < l.maxDuration
    && t.leader.Some? && t.follower.Some?
    && t.leader.value.names == t.follower.value.names
    && (t.leader.value.effector.Some? <==> t.follower.value.effector.Some?)
    && !Apart(t.leader.value.position, previous.position, l.leaderDrift)
  }

  /** Every joint of the follower is where the leader's is, and so is the effector, if any. */
  predicate Together(l: Limits, t: Tick)
    requires t.leader.Some? && t.follower.Some?
    requires t.leader.value.effector.Some? ==> t.follower.value.effector.Some?
  {
    var leader, follower := t.leader.value, t.follower.value;
    && !Apart(follower.position, leader.position, l.alignmentError)
    && (leader.effector.Some? ==> Abs(follower.effector.value - leader.effector.value) <= l.effectorError)
  }

  predicate InPlace(l: Limits, started: real, previous: Sample, t: Tick) {
    Clear(l, started, previous, t) && t.now - started >= l.minDuration && Together(l, t)
  }

  /** What has to be the case for a turn to end the loop in this way. */
  predicate Reason(l: Limits, started: real, gripper: bool, previous: Sample, t: Tick, outcome: Outcome) {
    match outcome
    case Unfinished => false
    case Cancelled => t.cancelled || t.cancelledLater
    case TimedOut => t.now - started >= l.maxDuration
    case Stale => t.leader.None? || t.follower.None?
    case Mismatched =>
      t.leader.Some? && t.follower.Some?
      && (t.leader.value.names != t.follower.value.names
          || (t.leader.value.effector.Some? != t.follower.value.effector.Some?))
    case Discontinuous => t.leader.Some? && Apart(t.leader.value.position, previous.position, l.leaderDrift)
    case NoGripper => t.leader.Some? && t.leader.value.effector.Some? && !gripper
    case Aligned => InPlace(l, started, previous, t)
  }

  lemma {:induction false} GapIsFarthest(a: seq<real>, b: seq<real>, n: nat, bound: real)
    requires n <= |a| == |b| && bound >= 0.0
    ensures Gap(a, b, n) > bound <==> exists i :: 0 <= i < n && Abs(a[i] - b[i]) > bound
  {
    if n > 0 {
      GapIsFarthest(a, b, n - 1, bound);
    }
  }

  lemma JudgedRightly(l: Limits, started: real, gripper: bool, previous: Sample, t: Tick)
    requires WellFormed(previous) && Positive(l)
    requires t.leader.Some? ==> WellFormed(t.leader.value) && t.leader.value.names == previous.names
    requires t.follower.Some? ==> WellFormed(t.follower.value)
    ensures var o := Judge(l, started, gripper, previous, t);
      && (o == Aligned <==> InPlace(l, started, previous, t))
      && (o != Unfinished ==> Reason(l, started, gripper, previous, t, o))
      && (o == Unfinished ==> forall e :: !Reason(l, started, gripper, previous, t, e))
  {
    hide Gap;
    if t.leader.Some? && t.follower.Some? && t.leader.value.names == t.follower.value.names {
      var leader, follower := t.leader.value, t.follower.value;
      GapIsFarthest(leader.position, previous.position, |leader.position|, l.leaderDrift);
      GapIsFarthest(follower.position, leader.position, |leader.position|, l.alignmentError);
    }
  }

  /** The joints of an arm keep their names while it is connected. */
  ghost predicate Proper(first: Sample, ticks: seq<Tick>) {
    && WellFormed(first)
    && forall k :: 0 <= k < |ticks| ==>
         && (ticks[k].leader.Some? ==> WellFormed(ticks[k].leader.value) && ticks[k].leader.value.names == first.names)
         && (ticks[k].follower.Some? ==> WellFormed(ticks[k].follower.value))
  }

  function Previous(first: Sample, ticks: seq<Tick>, k: nat): Sample
    requires k <= |ticks|
  {
    if k == 0 || ticks[k - 1].leader.None? then first else ticks[k - 1].leader.value
  }

  function Before(start: Command, commands: seq<Command>, k: nat): Command
    requires k <= |commands|
  {
    if k == 0 then start else commands[k - 1]
  }

  /** Command `k` steers the one before it towards the leader of turn `k`. */
  predicate Follows(l: Limits, start: Command, ticks: seq<Tick>, commands: seq<Command>, k: nat)
    requires k < |commands| <= |ticks|
  {
    && ticks[k].leader.Some?
    && |Before(start, commands, k).position| == |ticks[k].leader.value.position|
    && commands[k] == NextCommand(l, Before(start, commands, k), ticks[k].leader.value)
  }

  ghost predicate CommandsOf(l: Limits, start: Command, ticks: seq<Tick>, commands: seq<Command>) {
    |commands| <= |ticks| && forall k :: 0 <= k < |commands| ==> Follows(l, start, ticks, commands, k)
  }

  /** Turn `k` does not end the loop before its command. */
  ghost predicate GoesOn(l: Limits, started: real, first: Sample, gripper: bool, ticks: seq<Tick>, k: nat)
    requires Proper(first, ticks) && k < |ticks|
  {
    Judge(l, started, gripper, Previous(first, ticks, k), ticks[k]) == Unfinished
  }

  /** The clock never runs backwards, and the wait at the end of a turn lasts until the next
      step is due, unless the alignment is cancelled. */
  ghost predicate Clocked(started: real, ticks: seq<Tick>) {
    && (|ticks| > 0 ==> ticks[0].now >= started)
    && forall k :: 0 <= k < |ticks| ==>
         && ticks[k].planned >= ticks[k].now
         && (k + 1 < |ticks| ==>
               && ticks[k + 1].now >= ticks[k].planned
               && (!ticks[k + 1].cancelled ==>
                      ticks[k + 1].now >= ticks[k].planned + Pause(started, ticks[k].planned, k)))
  }

  /** What is left until step `k + 1` is due. */
  function Pause(started: real, planned: real, k: nat): (p: real)
    ensures p >= 0.0
  {
    Max(0.0, started + (k + 1) as real * PERIOD - planned)
  }

  // ----- implementation -----

  /** The loop of `_align`, from the first validated states on. */
  method Align(l: Limits, started: real, first: Sample, start: Command, ticks: seq<Tick>)
    returns (outcome: Outcome, commands: seq<Command>)
    requires Proper(first, ticks)
    requires |start.position| == |first.names| && Positive(l)
    ensures CommandsOf(l, start, ticks, commands)
    ensures forall k :: 0 <= k < |commands| ==> GoesOn(l, started, first, start.effector.Some?, ticks, k)
    ensures forall k, e :: 0 <= k < |commands| ==>
              !Reason(l, started, start.effector.Some?, Previous(first, ticks, k), ticks[k], e)
    ensures outcome == Unfinished ==> |commands| == |ticks|
    ensures outcome != Unfinished ==>
      || (|commands| < |ticks|
          && Reason(l, started, start.effector.Some?, Previous(first, ticks, |commands|), ticks[|commands|], outcome))
      || (outcome == Cancelled && |commands| > 0 && ticks[|commands| - 1].cancelledAfter)
    ensures outcome == Aligned <==>
      && |commands| < |ticks| && (|commands| > 0 ==> !ticks[|commands| - 1].cancelledAfter)
      && InPlace(l, started, Previous(first, ticks, |commands|), ticks[|commands|])
  {
    hide Judge, Reason, InPlace, NextCommand, Follows, WellFormed;
    commands := [];
    var command := start;
    var previous := first;
    var k := 0;
    while k < |ticks|
      invariant 0 <= k == |commands| <= |ticks|
      invariant command == Before(start, commands, k) && previous == Previous(first, ticks, k)
      invariant |command.position| == |first.names| && command.effector.Some? == start.effector.Some?
      invariant previous.names == first.names && WellFormed(previous)
      invariant CommandsOf(l, start, ticks, commands)
      invariant forall i :: 0 <= i < k ==> GoesOn(l, started, first, start.effector.Some?, ticks, i)
      invariant forall i, e :: 0 <= i < k ==>
                  !Reason(l, started, start.effector.Some?, Previous(first, ticks, i), ticks[i], e)
      invariant k > 0 ==> !ticks[k - 1].cancelledAfter
    {
      var t := ticks[k];
      outcome := Judge(l, started, start.effector.Some?, previous, t);
      JudgedRightly(l, started, start.effector.Some?, previous, t);
      if outcome != Unfinished {
        return;
      }
      Judged(l, started, start.effector.Some?, previous, t);
      previous := t.leader.value;
      NextShape(l, command, previous);
      ghost var longer := commands + [NextCommand(l, command, previous)];
      Extends(l, start, ticks, commands, longer);
      command := NextCommand(l, command, previous);
      commands := commands + [command];
      if t.cancelledAfter {
        return Cancelled, commands;
      }
      k := k + 1;
    }
    outcome := Unfinished;
  }

  lemma Judged(l: Limits, started: real, gripper: bool, previous: Sample, t: Tick)
    requires WellFormed(previous)
    requires t.leader.Some? ==> WellFormed(t.leader.value) && t.leader.value.names == previous.names
    requires t.follower.Some? ==> WellFormed(t.follower.value)
    requires Judge(l, started, gripper, previous, t) == Unfinished
    ensures t.leader.Some? && |t.leader.value.position| == |previous.names|
    ensures !t.cancelled && t.now - started < l.maxDuration
    ensures t.leader.value.effector.Some? ==> gripper
  {
  }

  lemma NextShape(l: Limits, c: Command, s: Sample)
    requires |c.position| == |s.position|
    ensures |NextCommand(l, c, s).position| == |c.position|
    ensures NextCommand(l, c, s).effector.Some? == c.effector.Some?
  {
  }

  lemma Extends(l: Limits, start: Command, ticks: seq<Tick>, commands: seq<Command>, longer: seq<Command>)
    requires CommandsOf(l, start, ticks, commands) && |longer| == |commands| + 1 <= |ticks|
    requires longer[..|commands|] == commands
    requires ticks[|commands|].leader.Some?
    requires |Before(start, commands, |commands|).position| == |ticks[|commands|].leader.value.position|
    requires longer[|commands|]
      == NextCommand(l, Before(start, commands, |commands|), ticks[|commands|].leader.value)
    ensures CommandsOf(l, start, ticks, longer)
  {
    forall k | 0 <= k < |longer| ensures Follows(l, start, ticks, longer, k) {
      assert Before(start, longer, k) == Before(start, commands, k);
      if k < |commands| {
        assert Follows(l, start, ticks, commands, k);
      }
    }
  }

  // ----- time -----

  /** Command `k` is not sent before its time, however late earlier turns were. */
  lemma {:induction false} CommandsKeepTheirTime(l: Limits, started: real, first: Sample, gripper: bool,
                                                 ticks: seq<Tick>, k: nat)
    requires Proper(first, ticks) && Clocked(started, ticks) && k < |ticks|
    requires forall j :: 0 <= j <= k ==> GoesOn(l, started, first, gripper, ticks, j)
    ensures ticks[k].now >= started + k as real * PERIOD
  {
    hide Judge;
    assert GoesOn(l, started, first, gripper, ticks, k);
    Judged(l, started, gripper, Previous(first, ticks, k), ticks[k]);
    if k > 0 {
      CommandsKeepTheirTime(l, started, first, gripper, ticks, k - 1);
    }
  }

  /** The alignment is over after its longest duration. */
  lemma AlignmentEnds(l: Limits, started: real, first: Sample, gripper: bool, ticks: seq<Tick>, n: nat)
    requires Proper(first, ticks) && Clocked(started, ticks) && n < |ticks|
    requires n as real * PERIOD >= l.maxDuration
    ensures !(forall j :: 0 <= j <= n ==> GoesOn(l, started, first, gripper, ticks, j))
  {
    hide Judge;
    if forall j :: 0 <= j <= n ==> GoesOn(l, started, first, gripper, ticks, j) {
      CommandsKeepTheirTime(l, started, first, gripper, ticks, n);
      assert GoesOn(l, started, first, gripper, ticks, n);
      Judged(l, started, gripper, Previous(first, ticks, n), ticks[n]);
      assert false;
    }
  }

  // ----- travel -----

  lemma SteeredStep(from: real, to: real, step: real)
    requires step >= 0.0
    ensures Abs(Steered(from, to, step) - from) <= step
    ensures Min(from, to) <= Steered(from, to, step) <= Max(from, to)
  {
  }

  /** How far joint `i` is commanded by the first `n` commands, all steps added up. */
  function Travel(start: Command, commands: seq<Command>, i: nat, n: nat): real
    requires n <= |commands| && i < |start.position|
    requires forall k :: 0 <= k < |commands| ==> |commands[k].position| == |start.position|
  {
    if n == 0 then 0.0
    else Travel(start, commands, i, n - 1)
         + Abs(commands[n - 1].position[i] - Before(start, commands, n - 1).position[i])
  }

  lemma {:induction false} SameJoints(l: Limits, start: Command, ticks: seq<Tick>, commands: seq<Command>, n: nat)
    requires CommandsOf(l, start, ticks, commands) && n <= |commands|
    ensures forall k :: 0 <= k < n ==> |commands[k].position| == |start.position|
    ensures forall k :: 0 <= k < n ==> commands[k].effector.Some? == start.effector.Some?
  {
    hide NextCommand;
    if n > 0 {
      SameJoints(l, start, ticks, commands, n - 1);
      assert Follows(l, start, ticks, commands, n - 1);
      NextShape(l, Before(start, commands, n - 1), ticks[n - 1].leader.value);
    }
  }

  lemma StepOf(l: Limits, start: Command, ticks: seq<Tick>, commands: seq<Command>, k: nat, i: nat)
    requires CommandsOf(l, start, ticks, commands) && k < |commands| && i < |start.position| && l.jointVelocity >= 0.0
    ensures |Before(start, commands, k).position| == |commands[k].position| == |start.position|
    ensures Abs(commands[k].position[i] - Before(start, commands, k).position[i]) <= l.jointVelocity * PERIOD
  {
    SameJoints(l, start, ticks, commands, k + 1);
    assert Follows(l, start, ticks, commands, k);
    SteeredStep(Before(start, commands, k).position[i], ticks[k].leader.value.position[i], l.jointVelocity * PERIOD);
  }

  lemma SteeredDistance(from: real, to: real, step: real)
    requires step >= 0.0
    ensures Abs(to - Steered(from, to, step)) == Max(0.0, Abs(to - from) - step)
  {
  }

  /** Every command takes each joint, and the effector, closer to where the leader is by one step of
      its own speed limit, or to it, and moves it no more than that. */
  lemma CommandsApproachLeader(l: Limits, start: Command, ticks: seq<Tick>, commands: seq<Command>, k: nat, i: nat)
    requires CommandsOf(l, start, ticks, commands) && k < |commands| && i < |start.position|
    requires l.jointVelocity >= 0.0 && l.effectorVelocity >= 0.0
    ensures |Before(start, commands, k).position| == |commands[k].position| == |start.position|
    ensures ticks[k].leader.Some? && |ticks[k].leader.value.position| == |start.position|
    ensures var from, to, leader :=
              Before(start, commands, k).position[i], commands[k].position[i], ticks[k].leader.value.position[i];
      && Abs(leader - to) == Max(0.0, Abs(leader - from) - l.jointVelocity * PERIOD)
      && Abs(to - from) <= l.jointVelocity * PERIOD
    ensures var from, to, leader :=
              Before(start, commands, k).effector, commands[k].effector, ticks[k].leader.value.effector;
      if from.Some? && leader.Some? then
        && to.Some?
        && Abs(leader.value - to.value) == Max(0.0, Abs(leader.value - from.value) - l.effectorVelocity * PERIOD)
        && Abs(to.value - from.value) <= l.effectorVelocity * PERIOD
      else to == from
  {
    hide Steered, Abs, Max;
    SameJoints(l, start, ticks, commands, k + 1);
    assert Follows(l, start, ticks, commands, k);
    var from, s := Before(start, commands, k), ticks[k].leader.value;
    SteeredStep(from.position[i], s.position[i], l.jointVelocity * PERIOD);
    SteeredDistance(from.position[i], s.position[i], l.jointVelocity * PERIOD);
    if from.effector.Some? && s.effector.Some? {
      SteeredStep(from.effector.value, s.effector.value, l.effectorVelocity * PERIOD);
      SteeredDistance(from.effector.value, s.effector.value, l.effectorVelocity * PERIOD);
    }
  }

  lemma {:induction false} TravelIsBounded(l: Limits, start: Command, ticks: seq<Tick>, commands: seq<Command>,
                                           i: nat, n: nat)
    requires CommandsOf(l, start, ticks, commands) && n <= |commands| && i < |start.position|
    requires forall k :: 0 <= k < |commands| ==> |commands[k].position| == |start.position|
    requires l.jointVelocity >= 0.0
    ensures Travel(start, commands, i, n) <= Part(n as real, l.jointVelocity * PERIOD)
  {
    hide Follows, Part;
    OneMorePart(n, l.jointVelocity * PERIOD);
    if n > 0 {
      TravelIsBounded(l, start, ticks, commands, i, n - 1);
      StepOf(l, start, ticks, commands, n - 1, i);
    }
  }

  lemma OneMorePart(n: nat, x: real)
    ensures n == 0 ==> Part(n as real, x) == 0.0
    ensures n > 0 ==> Part(n as real, x) == Part((n - 1) as real, x) + x
  {
  }

  lemma StepsInTime(n: nat, v: real, elapsed: real)
    requires n >= 1 && v >= 0.0 && (n - 1) as real * PERIOD <= elapsed
    ensures Part(n as real, v * PERIOD) <= v * elapsed + v * PERIOD
  {
    MulMono((n - 1) as real * PERIOD, elapsed, v);
  }

  /** By the time `t` a joint has been commanded at most the way it covers at its speed limit,
      plus one step, even when turns run late and are caught up. */
  lemma TravelByTime(l: Limits, started: real, first: Sample, start: Command, ticks: seq<Tick>,
                     commands: seq<Command>, i: nat, n: nat, t: real)
    requires Proper(first, ticks) && Clocked(started, ticks) && CommandsOf(l, start, ticks, commands)
    requires forall k :: 0 <= k < |commands| ==> GoesOn(l, started, first, start.effector.Some?, ticks, k)
    requires 1 <= n <= |commands| && i < |start.position| && l.jointVelocity >= 0.0
    requires ticks[n - 1].now <= t
    ensures forall k :: 0 <= k < |commands| ==> |commands[k].position| == |start.position|
    ensures Travel(start, commands, i, n) <= l.jointVelocity * (t - started) + l.jointVelocity * PERIOD
  {
    hide Follows, GoesOn, Part, Clocked, Travel, Proper;
    SameJoints(l, start, ticks, commands, |commands|);
    assert (n - 1) as real * PERIOD <= t - started by {
      CommandsKeepTheirTime(l, started, first, start.effector.Some?, ticks, n - 1);
    }
    var way, steps := Travel(start, commands, i, n), Part(n as real, l.jointVelocity * PERIOD);
    assert way <= steps by {
      TravelIsBounded(l, start, ticks, commands, i, n);
    }
    assert steps <= l.jointVelocity * (t - started) + l.jointVelocity * PERIOD by {
      StepsInTime(n, l.jointVelocity, t - started);
    }
  }

  // ----- range -----

  /** Commands stay between the start and the places the leader has been at. */
  lemma {:induction false} CommandsStayInHull(l: Limits, start: Command, ticks: seq<Tick>, commands: seq<Command>,
                                              i: nat, lo: real, hi: real, n: nat)
    requires CommandsOf(l, start, ticks, commands) && n < |commands| && i < |start.position| && l.jointVelocity >= 0.0
    requires lo <= start.position[i] <= hi
    requires forall k :: 0 <= k <= n && ticks[k].leader.Some? && i < |ticks[k].leader.value.position| ==>
               lo <= ticks[k].leader.value.position[i] <= hi
    ensures i < |commands[n].position| && lo <= commands[n].position[i] <= hi
  {
    SameJoints(l, start, ticks, commands, n + 1);
    assert Follows(l, start, ticks, commands, n);
    if n > 0 {
      CommandsStayInHull(l, start, ticks, commands, i, lo, hi, n - 1);
    }
    SteeredStep(Before(start, commands, n).position[i], ticks[n].leader.value.position[i], l.jointVelocity * PERIOD);
  }

  /** Effector commands are normalized, so that every command can be constructed. */
  lemma {:induction false} EffectorStaysNormalized(l: Limits, first: Sample, start: Command, ticks: seq<Tick>,
                                                   commands: seq<Command>, n: nat)
    requires Proper(first, ticks) && CommandsOf(l, start, ticks, commands) && n < |commands|
    requires l.effectorVelocity >= 0.0
    requires start.effector.Some? ==> 0.0 <= start.effector.value <= 1.0
    ensures commands[n].effector.Some? ==> 0.0 <= commands[n].effector.value <= 1.0
  {
    assert Follows(l, start, ticks, commands, n);
    if n > 0 {
      EffectorStaysNormalized(l, first, start, ticks, commands, n - 1);
    }
    var before, leader := Before(start, commands, n).effector, ticks[n].leader.value.effector;
    if before.Some? && leader.Some? {
      SteeredStep(before.value, leader.value, l.effectorVelocity * PERIOD);
    }
  }
}
