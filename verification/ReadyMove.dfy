/** The move to the ready position: one call per control loop, shared by the arm and the
    effector.  The functions specify one call; `SweepJoints` is the loop of the code; the lemmas
    say what a run of calls does, for every sequence of measurements and driver answers. */
module ReadyMove {
  import opened Wrappers
  import opened Control
  import opened Reals
  import ReadTriage

  /** A joint.  `tele` is the buffered target of the leader.  The last five fields are history:
      the last position command, how many were sent, the last command together with every pose
      measured since the control step that sent it began, the last command together with the poses
      measured since it was sent, and whether the step under way has measured the joint. */
  datatype Joint = Joint(
    servo: int, home: real, margin: real, velMax: real, posMin: real, posMax: real,
    pos: real, target: real, prev: real, tele: real,
    stuckLast: real, stuckCount: nat, latched: bool,
    sent: real, commands: nat, anchors: set<real>, since: set<real>, seen: bool)

  // ----- one joint -----

  function Measured(j: Joint, p: Option<real>): Joint {
    match p
    case Some(x) => j.(pos := x, anchors := j.anchors + {x}, since := j.since + {x}, seen := true)
    case None => j.(seen := false)
  }

  /** The slew starts over from the measured pose, ... */
  function Rebased(j: Joint): Joint { j.(target := j.pos, prev := j.pos) }

  /** ... and the buffered target of the leader is forgotten. */
  function Cleared(j: Joint): Joint { Rebased(j).(tele := j.pos) }

  function Commanded(j: Joint, c: real): Joint {
    j.(prev := c, sent := c, commands := j.commands + 1, anchors := if j.seen then {c, j.pos} else {c}, since := {c})
  }

  /** Start of a move: heading home from the measured pose, nothing known about being stuck. */
  function Prepared(j: Joint): Joint {
    j.(target := j.home, prev := j.pos, stuckLast := j.pos, stuckCount := 0, latched := false)
  }

  /** `Joint::update_and_check_stuck`: short of the target without moving for long enough, once
      and for all. */
  function CheckedStuck(j: Joint): Joint {
    var still := Abs(j.pos - j.stuckLast) < READY_MOVE_STUCK_POS_DELTA_RAD;
    var count := if Abs(j.target - j.pos) > j.margin && still then j.stuckCount + 1 else 0;
    j.(stuckLast := j.pos, stuckCount := count,
       latched := j.latched || count > READY_MOVE_STUCK_ITER_THRESHOLD)
  }

  predicate Outside(j: Joint) {
    Abs(j.target - j.pos) > j.margin + READY_MOVE_TOLERANCE_HYSTERESIS_RAD
  }

  /** A joint that keeps the move going. */
  predicate Blocks(j: Joint) { Outside(j) && !CheckedStuck(j).latched }

  /** The pose and the last command are on different sides of the target. */
  predicate Crossed(j: Joint) {
    var measured := j.target - j.pos;
    var commanded := j.target - j.prev;
    Abs(measured) > j.margin && ((measured > 0.0 && commanded < 0.0) || (measured < 0.0 && commanded > 0.0))
  }

  /** Where the next command starts from: the last command, or the pose once that has crossed the
      target. */
  function Base(j: Joint): real { if Crossed(j) then j.pos else j.prev }

  function Approach(from: real, to: real, step: real): real {
    if to - from > step then from + step
    else if to - from < -step then from - step
    else to
  }

  function ReadyJoint(j: Joint, step: real): Joint {
    Commanded(CheckedStuck(j), Approach(Base(j), j.target, step))
  }

  // ----- all joints of one call -----

  predicate Skips(j: Joint, failed: set<int>) { ReadTriage.Excluded(j.servo, failed) }

  function Swept(js: seq<Joint>, step: real, failed: set<int>): (r: seq<Joint>)
    ensures |r| == |js|
    ensures forall i :: 0 <= i < |js| ==> r[i] == if Skips(js[i], failed) then js[i] else ReadyJoint(js[i], step)
  {
    seq(|js|, i requires 0 <= i < |js| => if Skips(js[i], failed) then js[i] else ReadyJoint(js[i], step))
  }

  predicate Responsive(js: seq<Joint>, failed: set<int>) {
    exists i :: 0 <= i < |js| && !Skips(js[i], failed)
  }

  predicate Blocked(js: seq<Joint>, failed: set<int>) {
    exists i :: 0 <= i < |js| && !Skips(js[i], failed) && Blocks(js[i])
  }

  /** The servos whose move failed. */
  function FailedMoves(js: seq<Joint>, failed: set<int>, codes: nat -> ReturnCode, n: nat): set<int>
    requires n <= |js|
  {
    if n == 0 then {}
    else
      var before := FailedMoves(js, failed, codes, n - 1);
      var j := js[n - 1];
      if j.servo >= 0 && !Skips(j, failed) && !codes(n - 1).Success? then before + {j.servo} else before
  }

  lemma {:induction false} FailedMovesAre(js: seq<Joint>, failed: set<int>, codes: nat -> ReturnCode, n: nat, s: int)
    requires n <= |js|
    ensures s in FailedMoves(js, failed, codes, n) <==>
      exists i :: 0 <= i < n && js[i].servo == s && s >= 0 && s !in failed && !codes(i).Success?
  {
    if n > 0 {
      FailedMovesAre(js, failed, codes, n - 1, s);
    }
  }

  /** The code of the last joint that was moved: earlier failures are overwritten. */
  function LastCode(js: seq<Joint>, failed: set<int>, codes: nat -> ReturnCode, n: nat): ReturnCode
    requires n <= |js|
  {
    if n == 0 then Success
    else if Skips(js[n - 1], failed) then LastCode(js, failed, codes, n - 1)
    else codes(n - 1)
  }

  /** The loop over the joints. */
  method SweepJoints(joints: array<Joint>, step: real, failed: set<int>, codes: nat -> ReturnCode)
    returns (responsive: bool, blocked: bool, lost: set<int>, code: ReturnCode)
    modifies joints
    ensures joints[..] == Swept(old(joints[..]), step, failed)
    ensures responsive == Responsive(old(joints[..]), failed)
    ensures blocked == Blocked(old(joints[..]), failed)
    ensures lost == FailedMoves(old(joints[..]), failed, codes, joints.Length)
    ensures code == LastCode(old(joints[..]), failed, codes, joints.Length)
  {
    hide CheckedStuck, Outside, Base, Approach, Commanded;
    responsive, blocked, lost, code := false, false, {}, Success;
    ghost var js := joints[..];
    var i := 0;
    while i < joints.Length
      invariant 0 <= i <= joints.Length
      invariant forall k :: i <= k < joints.Length ==> joints[k] == js[k]
      invariant forall k :: 0 <= k < i ==>
                  joints[k] == if Skips(js[k], failed) then js[k] else ReadyJoint(js[k], step)
      invariant responsive <==> exists k :: 0 <= k < i && !Skips(js[k], failed)
      invariant blocked <==> exists k :: 0 <= k < i && !Skips(js[k], failed) && Blocks(js[k])
      invariant lost == FailedMoves(js, failed, codes, i)
      invariant code == LastCode(js, failed, codes, i)
    {
      var j := joints[i];
      if !(j.servo >= 0 && j.servo in failed) {
        responsive := true;
        var checked := CheckedStuck(j);
        if Outside(j) && !checked.latched {
          blocked := true;
        }
        joints[i] := Commanded(checked, Approach(Base(j), j.target, step));
        code := codes(i);
        if !code.Success? && j.servo >= 0 {
          lost := lost + {j.servo};
        }
      }
      i := i + 1;
    }
  }

  // ----- the counters of a move -----

  datatype Progress = Progress(done: bool, initCount: nat, reached: nat, total: int, used: nat)

  function MaxDisplacement(js: seq<Joint>, n: nat): (d: real)
    requires n <= |js|
    ensures d >= 0.0
    ensures forall i :: 0 <= i < n ==> Abs(js[i].home - js[i].pos) <= d
  {
    if n == 0 then 0.0
    else Max(MaxDisplacement(js, n - 1), Abs(js[n - 1].home - js[n - 1].pos))
  }

  /** How many calls a joint needs that covers `step` per call. */
  function TravelCalls(displacement: real, step: real): int {
    (displacement / (if step > 0.000000001 then step else 0.000000001)).Floor + 1
  }

  function Budget(displacement: real, step: real): (total: int)
    ensures total >= READY_MOVE_BUDGET_MIN_ITERS
  {
    var travel := READY_MOVE_BUDGET_TRAVEL_SCALE * TravelCalls(displacement, step) + DEVICE_ARRIVED_CONFIRM_CNT;
    if travel > READY_MOVE_BUDGET_MIN_ITERS then travel else READY_MOVE_BUDGET_MIN_ITERS
  }

  function Started(p: Progress, displacement: real, step: real): Progress {
    if p.initCount < 1 then p.(reached := 0, total := Budget(displacement, step), used := 0) else p
  }

  /** What one call does to the counters of a move that is not done. */
  function Counted(p: Progress, responsive: bool, blocked: bool): Progress {
    var used := p.used + 1;
    var exhausted := p.total > 0 && used > p.total;
    var reached := if blocked then 0 else if responsive then p.reached + 1 else p.reached;
    var done := !responsive || (if blocked then exhausted else reached > DEVICE_ARRIVED_CONFIRM_CNT);
    Progress(done, if done then 1 else p.initCount + 1, reached, p.total, used)
  }

  // ----- one call of the move -----

  datatype Move = Move(joints: seq<Joint>, progress: Progress, failed: set<int>)

  /** What the hardware contributes to a call: the poses read before it, the servos the reading
      took out of use, and the answers to the commands. */
  datatype CallInput = CallInput(poses: nat -> Option<real>, lost: set<int>, codes: nat -> ReturnCode)

  function Read(js: seq<Joint>, poses: nat -> Option<real>): (r: seq<Joint>)
    ensures |r| == |js|
    ensures forall i :: 0 <= i < |js| ==> r[i] == Measured(js[i], poses(i))
  {
    seq(|js|, i requires 0 <= i < |js| => Measured(js[i], poses(i)))
  }

  function AllPrepared(js: seq<Joint>): (r: seq<Joint>)
    ensures |r| == |js|
    ensures forall i :: 0 <= i < |js| ==> r[i] == Prepared(js[i])
  {
    seq(|js|, i requires 0 <= i < |js| => Prepared(js[i]))
  }

  /** The joints and the counters when the sweep of a call begins. */
  function Ready(m: Move, step: real): Move {
    if m.progress.initCount < 1 then
      m.(joints := AllPrepared(m.joints),
         progress := Started(m.progress, MaxDisplacement(m.joints, |m.joints|), step))
    else m
  }

  function Tick(m: Move, step: real, codes: nat -> ReturnCode): Move {
    var r := Ready(m, step);
    Move(Swept(r.joints, step, r.failed),
         Counted(r.progress, Responsive(r.joints, r.failed), Blocked(r.joints, r.failed)),
         r.failed + FailedMoves(r.joints, r.failed, codes, |r.joints|))
  }

  function TickCode(m: Move, step: real, codes: nat -> ReturnCode): ReturnCode {
    var r := Ready(m, step);
    LastCode(r.joints, r.failed, codes, |r.joints|)
  }

  function Call(m: Move, step: real, inp: CallInput): Move {
    var r := Move(Read(m.joints, inp.poses), m.progress, m.failed + inp.lost);
    if m.progress.done then r else Tick(r, step, inp.codes)
  }

  function Calls(m: Move, step: real, ins: seq<CallInput>): Move {
    if |ins| == 0 then m else Call(Calls(m, step, ins[..|ins| - 1]), step, ins[|ins| - 1])
  }

  // ----- every move finishes -----

  /** A bound on the calls a started move still needs. */
  function CallsLeft(p: Progress): (n: int)
  {
    if p.done then 0
    else if p.used < p.total then p.total - p.used + DEVICE_ARRIVED_CONFIRM_CNT + 1
    else DEVICE_ARRIVED_CONFIRM_CNT + 1 - p.reached
  }

  /** The counters while a move is under way or over. */
  predicate Running(p: Progress) {
    p.total > 0 && p.initCount >= 1 && (!p.done ==> p.reached <= DEVICE_ARRIVED_CONFIRM_CNT)
  }

  lemma CountedDecreases(p: Progress, responsive: bool, blocked: bool)
    requires p.total > 0 && !p.done && p.reached <= DEVICE_ARRIVED_CONFIRM_CNT
    ensures var q := Counted(p, responsive, blocked);
      Running(q) && q.total == p.total && (q.done || 0 < CallsLeft(q) < CallsLeft(p))
  {
  }

  lemma TickProgress(m: Move, step: real, codes: nat -> ReturnCode)
    requires !m.progress.done && (m.progress.initCount < 1 || Running(m.progress))
    ensures var q := Tick(m, step, codes).progress;
      && Running(q) && q.total == Ready(m, step).progress.total
      && (q.done || 0 < CallsLeft(q) < CallsLeft(Ready(m, step).progress))
  {
    var r := Ready(m, step);
    CountedDecreases(r.progress, Responsive(r.joints, r.failed), Blocked(r.joints, r.failed));
  }

  /** How many calls a move that starts at `m` needs at most. */
  function CallsNeeded(m: Move, step: real): (n: nat) {
    Budget(MaxDisplacement(m.joints, |m.joints|), step) + DEVICE_ARRIVED_CONFIRM_CNT + 1
  }

  lemma {:induction false} CallsCountDown(m: Move, step: real, ins: seq<CallInput>)
    requires !m.progress.done && m.progress.initCount == 0 && |ins| >= 1
    ensures var first := Move(Read(m.joints, ins[0].poses), m.progress, m.failed + ins[0].lost);
      var p := Calls(m, step, ins).progress;
      Running(p) && (p.done || 0 < CallsLeft(p) <= CallsNeeded(first, step) - |ins|)
  {
    var last := |ins| - 1;
    var before := Calls(m, step, ins[..last]);
    if last == 0 {
      assert before == m;
    } else {
      CallsCountDown(m, step, ins[..last]);
    }
    var r := Move(Read(before.joints, ins[last].poses), before.progress, before.failed + ins[last].lost);
    if !before.progress.done {
      TickProgress(r, step, ins[last].codes);
    }
  }

  /** Whatever the sensors report and whichever commands fail, a move ends within its budget and
      the confirmations that may follow it. */
  lemma MoveFinishes(m: Move, step: real, ins: seq<CallInput>)
    requires !m.progress.done && m.progress.initCount == 0 && |ins| >= 1
    requires var first := Move(Read(m.joints, ins[0].poses), m.progress, m.failed + ins[0].lost);
      |ins| >= CallsNeeded(first, step)
    ensures Calls(m, step, ins).progress.done
  {
    CallsCountDown(m, step, ins);
  }

  // ----- the bound is exact -----

  /** A move about to start with every joint in use. */
  predicate Unstarted(m: Move) {
    && !m.progress.done && m.progress.initCount == 0 && m.failed == {} && |m.joints| > 0
    && forall i :: 0 <= i < |m.joints| ==> m.joints[i].margin >= 0.0
  }

  /** A joint that oscillates away from home for `total` calls and is at home from then on. */
  function LatePose(j: Joint, total: nat, k: nat): real {
    if k >= total then j.home else j.home + j.margin + (if k % 2 == 0 then 1.0 else 2.0)
  }

  function LateInput(m: Move, total: nat, k: nat): CallInput {
    CallInput((i: nat) => if i < |m.joints| then Some(LatePose(m.joints[i], total, k)) else None,
              {}, (i: nat) => Success)
  }

  function LateInputs(m: Move, total: nat, n: nat): (r: seq<CallInput>)
    ensures |r| == n && forall k :: 0 <= k < n ==> r[k] == LateInput(m, total, k)
  {
    seq(n, k requires 0 <= k < n => LateInput(m, total, k))
  }

  /** What the first call of such a move sees, and the budget it gets. */
  function LateStart(m: Move): Move { m.(joints := Read(m.joints, LateInput(m, 1, 0).poses)) }

  function LateBudget(m: Move, step: real): nat {
    Budget(MaxDisplacement(LateStart(m).joints, |LateStart(m).joints|), step)
  }

  /** Joint `j` has become `k` after `n` calls. */
  predicate Oscillates(j: Joint, k: Joint, total: nat, n: nat)
    requires n >= 1
  {
    && k.servo == j.servo && k.home == j.home && k.margin == j.margin && k.target == j.home
    && k.pos == k.stuckLast == LatePose(j, total, n - 1) && !k.latched && k.stuckCount <= 1
  }

  lemma OscillatesNext(j: Joint, k: Joint, total: nat, n: nat, step: real)
    requires n >= 1 && j.margin >= 0.0 && Oscillates(j, k, total, n)
    ensures var s := Measured(k, Some(LatePose(j, total, n)));
      Oscillates(j, ReadyJoint(s, step), total, n + 1) && (Blocks(s) <==> n < total)
  {
    hide Approach, Base;
  }

  lemma OscillatesFirst(j: Joint, total: nat, step: real)
    requires j.margin >= 0.0 && total >= 1
    ensures var s := Prepared(Measured(j, Some(LatePose(j, total, 0))));
      Oscillates(j, ReadyJoint(s, step), total, 1) && Blocks(s)
  {
    hide Approach, Base;
  }

  /** The state after `n` calls of such a move. */
  predicate LateState(m: Move, q: Move, step: real, n: nat)
    requires n >= 1
  {
    var total := LateBudget(m, step);
    && |q.joints| == |m.joints| && q.failed == {}
    && (forall i :: 0 <= i < |m.joints| ==> Oscillates(m.joints[i], q.joints[i], total, n))
    && !q.progress.done && q.progress.used == n && q.progress.total == total && q.progress.initCount >= 1
    && q.progress.reached == if n <= total then 0 else n - total
  }

  lemma NoneRefused(js: seq<Joint>, codes: nat -> ReturnCode, n: nat)
    requires n <= |js| && forall i: nat :: codes(i).Success?
    ensures FailedMoves(js, {}, codes, n) == {}
  {
  }

  /** One call, given the joints `r` that its sweep faces. */
  lemma LateCall(m: Move, r: Move, q: Move, step: real, codes: nat -> ReturnCode, n: nat)
    requires Unstarted(m) && |r.joints| == |m.joints| && r.failed == {} && forall i: nat :: codes(i).Success?
    requires forall i :: 0 <= i < |m.joints| ==>
      Oscillates(m.joints[i], ReadyJoint(r.joints[i], step), LateBudget(m, step), n + 1)
      && (Blocks(r.joints[i]) <==> n < LateBudget(m, step))
    requires var p := r.progress;
      && !p.done && p.used == n && p.total == LateBudget(m, step)
      && p.reached == if n <= p.total then 0 else n - p.total
    requires q == Move(Swept(r.joints, step, r.failed),
                       Counted(r.progress, Responsive(r.joints, r.failed), Blocked(r.joints, r.failed)),
                       r.failed + FailedMoves(r.joints, r.failed, codes, |r.joints|))
    ensures n < LateBudget(m, step) + DEVICE_ARRIVED_CONFIRM_CNT ==> LateState(m, q, step, n + 1)
    ensures n == LateBudget(m, step) + DEVICE_ARRIVED_CONFIRM_CNT ==> q.progress.done
  {
    hide Oscillates, Blocks, ReadyJoint, LateBudget, Budget;
    NoneRefused(r.joints, codes, |r.joints|);
    assert !Skips(r.joints[0], {});
    assert Responsive(r.joints, {});
    if n >= LateBudget(m, step) {
      assert !Blocked(r.joints, {});
    } else {
      assert Blocked(r.joints, {});
    }
    BudgetIsPositive(m, step);
  }

  lemma BudgetIsPositive(m: Move, step: real)
    ensures LateBudget(m, step) >= READY_MOVE_BUDGET_MIN_ITERS
  {
  }

  lemma CallsOneMore(m: Move, step: real, ins: seq<CallInput>, inp: CallInput)
    ensures Calls(m, step, ins + [inp]) == Call(Calls(m, step, ins), step, inp)
  {
    assert (ins + [inp])[..|ins|] == ins;
  }

  lemma InputsOneMore(m: Move, total: nat, n: nat)
    ensures LateInputs(m, total, n + 1) == LateInputs(m, total, n) + [LateInput(m, total, n)]
  {
  }

  lemma LateFirst(m: Move, step: real)
    requires Unstarted(m)
    ensures LateState(m, Call(m, step, LateInput(m, LateBudget(m, step), 0)), step, 1)
  {
    hide Budget, LateState, Blocks, Oscillates, ReadyJoint;
    BudgetIsPositive(m, step);
    var total := LateBudget(m, step);
    var inp := LateInput(m, total, 0);
    assert Read(m.joints, inp.poses) == LateStart(m).joints;
    var r := Ready(Move(LateStart(m).joints, m.progress, {}), step);
    forall i | 0 <= i < |m.joints|
      ensures Oscillates(m.joints[i], ReadyJoint(r.joints[i], step), total, 1) && Blocks(r.joints[i])
    {
      OscillatesFirst(m.joints[i], total, step);
    }
    assert m.failed + inp.lost == {};
    LateCall(m, r, Call(m, step, inp), step, inp.codes, 0);
  }

  lemma LateNext(m: Move, q: Move, step: real, n: nat)
    requires Unstarted(m) && n >= 1 && LateState(m, q, step, n)
    requires n <= LateBudget(m, step) + DEVICE_ARRIVED_CONFIRM_CNT
    ensures var next := Call(q, step, LateInput(m, LateBudget(m, step), n));
      && (n < LateBudget(m, step) + DEVICE_ARRIVED_CONFIRM_CNT ==> LateState(m, next, step, n + 1))
      && (n == LateBudget(m, step) + DEVICE_ARRIVED_CONFIRM_CNT ==> next.progress.done)
  {
    hide Budget, Blocks, Oscillates, ReadyJoint, LateBudget;
    var total := LateBudget(m, step);
    var inp := LateInput(m, total, n);
    var r := Move(Read(q.joints, inp.poses), q.progress, {});
    assert q.failed + inp.lost == {};
    assert Ready(r, step) == r;
    forall i | 0 <= i < |m.joints|
      ensures Oscillates(m.joints[i], ReadyJoint(r.joints[i], step), total, n + 1)
      ensures Blocks(r.joints[i]) <==> n < total
    {
      OscillatesNext(m.joints[i], q.joints[i], total, n, step);
    }
    LateCall(m, r, Call(q, step, inp), step, inp.codes, n);
  }

  lemma {:induction false} LateRun(m: Move, step: real, n: nat)
    requires Unstarted(m) && 1 <= n <= LateBudget(m, step) + DEVICE_ARRIVED_CONFIRM_CNT
    ensures LateState(m, Calls(m, step, LateInputs(m, LateBudget(m, step), n)), step, n)
  {
    hide LateState, LateBudget, Call, Unstarted;
    var total := LateBudget(m, step);
    InputsOneMore(m, total, n - 1);
    CallsOneMore(m, step, LateInputs(m, total, n - 1), LateInput(m, total, n - 1));
    if n == 1 {
      assert LateInputs(m, total, 0) == [];
      LateFirst(m, step);
    } else {
      LateRun(m, step, n - 1);
      LateNext(m, Calls(m, step, LateInputs(m, total, n - 1)), step, n - 1);
    }
  }

  lemma StateIsNotDone(m: Move, q: Move, step: real, n: nat)
    requires n >= 1 && LateState(m, q, step, n)
    ensures !q.progress.done
  {
  }

  /** The bound of `MoveFinishes` cannot be improved: for every move there are measurements, those of
      joints that oscillate until the budget is used up and are home from then on, with which it
      ends only with its very last call. */
  lemma BoundIsAttained(m: Move, step: real)
    requires Unstarted(m)
    ensures var total := LateBudget(m, step); var n := total + DEVICE_ARRIVED_CONFIRM_CNT;
      && n + 1 == CallsNeeded(LateStart(m), step)
      && !Calls(m, step, LateInputs(m, total, n)).progress.done
      && Calls(m, step, LateInputs(m, total, n + 1)).progress.done
  {
    hide LateState, Call, Budget, Unstarted;
    var total := LateBudget(m, step);
    var n := total + DEVICE_ARRIVED_CONFIRM_CNT;
    BudgetIsPositive(m, step);
    LateRun(m, step, n);
    StateIsNotDone(m, Calls(m, step, LateInputs(m, total, n)), step, n);
    InputsOneMore(m, total, n);
    CallsOneMore(m, step, LateInputs(m, total, n), LateInput(m, total, n));
    LateNext(m, Calls(m, step, LateInputs(m, total, n)), step, n);
  }
}
